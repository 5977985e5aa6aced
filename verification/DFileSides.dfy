/** What each end of a DFile transfer does to the agreement between them. */
module DFileSides {
  import opened Bytes
  import opened DFileCore
  import opened DFileLink
  import DR = DFileResults

  // ---------------------------------------------------------------- sender: control

  /** The same files at the same point of the stream. */
  ghost predicate SameStream(files: seq<TxFile>, files': seq<TxFile>) {
    && |files'| == |files|
    && (forall i | 0 <= i < |files| :: SamePlace(files[i], files'[i]))
  }

  ghost predicate SamePlace(f: TxFile, g: TxFile) {
    (TxFileOk(f) ==> TxFileOk(g)) && g.id == f.id && g.name == f.name && g.content == f.content && g.next == f.next
  }

  lemma StreamStays(o: Offered, files: seq<TxFile>, files': seq<TxFile>, m: nat)
    requires TxFilesFor(o, files, m) && SameStream(files, files')
    ensures TxFilesFor(o, files', m)
  {
    hide TxFileOk, Share;
    forall i | 0 <= i < |files'|
      ensures TxFileFor(o, i, files'[i], m)
    {
      assert TxFileFor(o, i, files[i], m) && SamePlace(files[i], files'[i]);
    }
  }

  /** The sender's books change; nothing is sent. */
  lemma TxChanges(w: Wire, t': Tx)
    requires Agree(w) && w.o.Some? && w.tx.Some? && w.tx.value.phase != TxDone
    requires t'.trans == w.tx.value.trans && SameStream(w.tx.value.files, t'.files)
    requires |t'.files| == |w.o.value.items|
    requires forall i | 0 <= i < |w.o.value.items| :: AckedFor(w.o.value, i, t'.files[i], FilesOf(w.rx))
    requires t'.phase in {TxWaitConfirm, TxSending, TxWaitDone, Failed}
    requires t'.phase in {TxSending, TxWaitDone} ==> Opened(w.o.value, FilesOf(w.rx))
    requires t'.doneReceived ==> Written(w.o.value, FilesOf(w.rx))
    ensures Agree(w.(tx := Some(t')))
  {
    hide RxPart, Fwd, Back, TxFilesFor, AckedFor, SameStream, NoGap, Reach, Written, Opened;
    var e: nat, m: nat :| AgreeAt(w, e, m);
    StreamStays(w.o.value, w.tx.value.files, t'.files, m);
    assert AgreeAt(w.(tx := Some(t')), e, m);
  }

  lemma TxFacts(w: Wire)
    requires Agree(w) && w.tx.Some?
    ensures w.o.Some? && OfferOk(w.o.value) && w.tx.value.trans == w.o.value.trans
            && |w.tx.value.files| == |w.o.value.items|
    ensures forall i | 0 <= i < |w.o.value.items| :: AckedFor(w.o.value, i, w.tx.value.files[i], FilesOf(w.rx))
    ensures w.tx.value.phase in {TxSending, TxWaitDone, TxDone} ==> Opened(w.o.value, FilesOf(w.rx))
    ensures w.tx.value.doneReceived ==> Written(w.o.value, FilesOf(w.rx))
    ensures TxOk(w.tx.value)
  {
    var e: nat, m: nat :| AgreeAt(w, e, m);
    hide RxPart, Fwd, Back, Flow, AckedFor;
    forall i | 0 <= i < |w.tx.value.files|
      ensures TxFileOk(w.tx.value.files[i]) && w.tx.value.files[i].id == i + 1
    {
      assert TxFileFor(w.o.value, i, w.tx.value.files[i], m);
    }
  }

  /** The sender reports success. */
  lemma TxFinishes(w: Wire, ids: seq<u16>)
    requires Agree(w) && w.tx.Some? && !Terminal(w.tx.value.phase)
    requires w.tx.value.doneReceived && AllAcked(w.tx.value)
    ensures Agree(w.(tx := Some(w.tx.value.(doneAckSent := true, phase := TxDone)),
                     fwd := w.fwd + [DoneAck(w.tx.value.trans, ids)]))
  {
    TxFacts(w);
    hide RxPart, Back, Flow, TxFilesFor, AckedFor, AllAcked;
    var e: nat, m: nat :| AgreeAt(w, e, m);
    var f := DoneAck(w.tx.value.trans, ids);
    var w' := w.(tx := Some(w.tx.value.(doneAckSent := true, phase := TxDone)), fwd := w.fwd + [f]);
    FlowSend(w, e, m, f);
    FlowTx(w.o.value, w.tx, w'.tx, w'.fwd, w.rx, w.open, e, m);
    hide HeaderOk, DataOk;
    assert AgreeAt(w', e, m);
  }

  /** A backward frame about to be read tells the truth. */
  lemma BackHead(w: Wire)
    requires Agree(w) && w.back != [] && Backward(w.back[0])
    ensures w.o.Some? && BackOk(w.o.value, FilesOf(w.rx), w.back[0])
  {
    hide TxPart, RxPart, Fwd, Cross, Flow;
  }

  lemma {:induction false} ConfirmSame(files: seq<TxFile>, ids: seq<u16>)
    ensures SameStream(files, ConfirmIds(files, ids))
    ensures forall i | 0 <= i < |files| ::
              var g := ConfirmIds(files, ids)[i]; g.lastAcked == files[i].lastAcked && g.ackedAll == files[i].ackedAll
    decreases |ids|
  {
    if ids != [] {
      var i := FindTx(files, ids[0]);
      var files' := if i < |files| then files[i := files[i].(confirmed := true)] else files;
      assert SameStream(files, files');
      ConfirmSame(files', ids[1..]);
      SameTrans(files, files', ConfirmIds(files, ids));
    }
  }

  lemma SameTrans(a: seq<TxFile>, b: seq<TxFile>, c: seq<TxFile>)
    requires SameStream(a, b) && SameStream(b, c)
    ensures SameStream(a, c)
  {
    hide TxFileOk;
    forall i | 0 <= i < |a|
      ensures SamePlace(a[i], c[i])
    {
      assert SamePlace(a[i], b[i]) && SamePlace(b[i], c[i]);
    }
  }

  /** Truthful acks keep the sender's knowledge true. */
  lemma {:induction false} AcksKeep(o: Offered, files: seq<TxFile>, acks: seq<AckEntry>, rx: seq<RxFile>)
    requires TxFilesOk(files) && |files| == |o.items|
    requires forall i | 0 <= i < |o.items| :: AckedFor(o, i, files[i], rx)
    requires forall k | 0 <= k < |acks| :: AckOk(o, rx, acks[k])
    ensures SameStream(files, AckEach(files, acks))
    ensures forall i | 0 <= i < |o.items| :: AckedFor(o, i, AckEach(files, acks)[i], rx)
    decreases |acks|
  {
    hide TxFileOk, AckFile, AckedFor, AckOk, SamePlace;
    if acks == [] {
      SameSelf(files);
    } else {
      assert AckOk(o, rx, acks[0]);
      var files' := AckOne(files, acks[0]);
      AckOneKeeps(o, files, acks[0], rx);
      AcksKeep(o, files', acks[1..], rx);
      SameTrans(files, files', AckEach(files, acks));
    }
  }

  lemma SameSelf(files: seq<TxFile>)
    ensures SameStream(files, files)
  {
  }

  lemma AckOneKeeps(o: Offered, files: seq<TxFile>, e: AckEntry, rx: seq<RxFile>)
    requires TxFilesOk(files) && |files| == |o.items| && AckOk(o, rx, e)
    requires forall i | 0 <= i < |o.items| :: AckedFor(o, i, files[i], rx)
    ensures var files' := AckOne(files, e);
            && TxFilesOk(files') && SameStream(files, files')
            && forall i | 0 <= i < |o.items| :: AckedFor(o, i, files'[i], rx)
  {
    var i := FindTx(files, e.id);
    assert files[e.id - 1].id == e.id;
    assert i < |files| ==> files[i].id == i + 1;
    DR.AckFileOk(files[i], e.last);
    hide TxFileOk, Rank;
  }

  // ---------------------------------------------------------------- receiver: headers

  /** Headers arrive in order, so accumulating them with deduplication extends a prefix of the list. */
  lemma {:induction false} AccumulatePrefix(o: Offered, h: nat, a: nat, b: nat)
    requires OfferOk(o) && a <= h && a <= b <= |o.items| && h <= |o.items|
    ensures Accumulate(Entries(o)[..h], Entries(o)[a..b], |o.items|) == (Entries(o)[..if b > h then b else h], true)
    decreases b - a
  {
    var all := Entries(o);
    if a == b {
      assert all[a..b] == [];
    } else {
      assert all[a..b][0] == all[a] && all[a..b][1..] == all[a + 1..b];
      if a < h {
        assert all[..h][a] == all[a];
        assert all[a] in all[..h];
        AccumulatePrefix(o, h, a + 1, b);
      } else {
        assert forall k | 0 <= k < h :: all[..h][k].id == k + 1;
        assert !HasId(all[..h], all[a].id);
        assert all[..h] + [all[a]] == all[..h + 1];
        AccumulatePrefix(o, h + 1, a + 1, b);
      }
    }
  }

  function RxOr(rx: Option<Rx>, trans: u16, node: u16): Rx {
    if rx.None? then FreshRx(trans, node) else rx.value
  }

  /** A header frame is read by a receiver that has not failed. */
  lemma HeaderTaken(w: Wire)
    requires Agree(w) && w.open && w.fwd != [] && w.fwd[0].FileHeader? && !RxPhase(w.rx, Failed)
    ensures w.o.Some? && w.fwd[0].node != 0
    ensures var f := w.fwd[0]; var t := RxOr(w.rx, f.trans, f.node); var got := Accumulate(t.hdr, f.entries, f.node);
            && t.trans == f.trans && t.node == f.node && got.1
            && Agree(w.(fwd := w.fwd[1..], rx := Some(t.(hdr := got.0))))
            && (RxPhase(w.rx, RxDone) ==> got.0 == t.hdr)
  {
    hide AgreeAt, Accumulate, RxOr;
    SomeOffer(w);
    var e: nat, m: nat :| AgreeAt(w, e, m);
    HeaderTakenAt(w, e, m);
  }

  lemma SomeOffer(w: Wire)
    requires Agree(w) && w.fwd != [] && Forward(w.fwd[0])
    ensures w.o.Some?
  {
  }

  lemma HeaderTakenAt(w: Wire, e: nat, m: nat)
    requires w.o.Some? && OfferOk(w.o.value) && AgreeAt(w, e, m)
    requires w.open && w.fwd != [] && w.fwd[0].FileHeader? && !RxPhase(w.rx, Failed)
    ensures w.fwd[0].node != 0
    ensures var f := w.fwd[0]; var t := RxOr(w.rx, f.trans, f.node); var got := Accumulate(t.hdr, f.entries, f.node);
            && t.trans == f.trans && t.node == f.node && got.1
            && Agree(w.(fwd := w.fwd[1..], rx := Some(t.(hdr := got.0))))
            && (RxPhase(w.rx, RxDone) ==> got.0 == t.hdr)
  {
    hide AgreeAt, Accumulate, Entries, OfferOk, Flow, Agree, Opened, AllComplete;
    var o := w.o.value;
    var f := w.fwd[0];
    HeaderHead(w, e, m);
    SomeItems(o);
    var t := RxOr(w.rx, f.trans, f.node);
    var a := f.entries[0].id - 1;
    AccumulatePrefix(o, |t.hdr|, a, a + |f.entries|);
    HeaderPrefix(o, Bump(|t.hdr|, HeaderSpan(f)));
    var rx' := Some(t.(hdr := Accumulate(t.hdr, f.entries, f.node).0));
    FlowTake(w, e, m, rx');
    assert DataSpan(o, f) == NOTHING;
    HeaderAssemble(w, e, m, rx');
  }

  lemma SomeItems(o: Offered)
    requires OfferOk(o)
    ensures |o.items| > 0
  {
  }

  lemma FreshHead(o: Offered)
    requires OfferOk(o)
    ensures RxHead(o, FreshRx(o.trans, |o.items|))
  {
  }

  /** What is known of a header frame about to be read. */
  lemma HeaderHead(w: Wire, e: nat, m: nat)
    requires w.o.Some? && OfferOk(w.o.value) && AgreeAt(w, e, m)
    requires w.open && w.fwd != [] && w.fwd[0].FileHeader? && !RxPhase(w.rx, Failed)
    ensures Flow(w.o.value, w.tx, w.fwd, w.rx, w.open, e, m)
    ensures var f := w.fwd[0]; var t := RxOr(w.rx, f.trans, f.node);
            && f.trans == w.o.value.trans && HeaderOk(w.o.value, f) && t.trans == f.trans && t.node == f.node
            && RxHead(w.o.value, t) && HeaderSpan(f).lo <= |t.hdr| && |t.hdr| == HeaderCount(w.rx)
  {
    hide TxPart, Back, Cross, RxFilesFor, HeaderOk, DataOk, RxHead, DataSpans, OfferOk;
    assert FwdOk(w.o.value, IsPhase(w.tx, TxDone), Opened(w.o.value, FilesOf(w.rx)), w.fwd[0]);
    SpansPop(w.o.value, w.fwd);
    GapPop(HeaderSpans(w.fwd), HeaderCount(w.rx));
    FreshHead(w.o.value);
    HeaderNode(w.o.value, w.fwd[0]);
    if w.rx.Some? {
      RxHeadIds(w.o.value, w.rx.value);
    }
    hide NoGap, Reach, HeaderSpans;
  }

  lemma HeaderNode(o: Offered, f: Frame)
    requires OfferOk(o) && f.FileHeader? && HeaderOk(o, f)
    ensures f.node == |o.items|
  {
  }

  lemma RxHeadIds(o: Offered, t: Rx)
    requires OfferOk(o) && RxHead(o, t)
    ensures t.trans == o.trans && t.node == |o.items|
  {
  }

  /** The first frame is taken. */
  lemma FlowTake(w: Wire, e: nat, m: nat, rx': Option<Rx>)
    requires w.o.Some? && Flow(w.o.value, w.tx, w.fwd, w.rx, w.open, e, m) && w.fwd != [] && w.open
    requires !RxPhase(rx', Failed) ==>
               !RxPhase(w.rx, Failed) && HeaderCount(rx') == Bump(HeaderCount(w.rx), HeaderSpan(w.fwd[0]))
    ensures DataSpan(w.o.value, w.fwd[0]).lo <= e
    ensures Flow(w.o.value, w.tx, w.fwd[1..], rx', w.open, Bump(e, DataSpan(w.o.value, w.fwd[0])), m)
  {
    hide HeaderSpan, DataSpan;
    SpansPop(w.o.value, w.fwd);
    GapPop(DataSpans(w.o.value, w.fwd), e);
    if !RxPhase(w.rx, Failed) {
      GapPop(HeaderSpans(w.fwd), HeaderCount(w.rx));
    }
    hide NoGap, Reach;
  }

  lemma HeaderAssemble(w: Wire, e: nat, m: nat, rx': Option<Rx>)
    requires w.o.Some? && OfferOk(w.o.value) && AgreeAt(w, e, m) && w.fwd != [] && rx'.Some?
    requires RxHead(w.o.value, rx'.value) && FilesOf(rx') == FilesOf(w.rx)
             && RxPhase(rx', RxDone) == RxPhase(w.rx, RxDone)
    requires Flow(w.o.value, w.tx, w.fwd[1..], rx', w.open, e, m)
    ensures Agree(w.(fwd := w.fwd[1..], rx := rx'))
  {
    hide TxPart, RxHead, RxFilesFor, Cross, Flow, Back, FwdOk;
    assert AgreeAt(w.(fwd := w.fwd[1..], rx := rx'), e, m);
  }

  lemma HeaderPrefix(o: Offered, n: nat)
    requires OfferOk(o) && n <= |o.items|
    ensures |Entries(o)[..n]| == n && |Entries(o)| == |o.items|
  {
  }

  /** A failed receiver ignores headers. */
  lemma HeaderDropped(w: Wire)
    requires Agree(w) && w.fwd != [] && w.fwd[0].FileHeader? && RxPhase(w.rx, Failed)
    ensures Agree(w.(fwd := w.fwd[1..]))
  {
    hide TxPart, Back, RxPart, Cross, FwdOk;
    var e: nat, m: nat :| AgreeAt(w, e, m);
    if w.open {
      FlowTake(w, e, m, w.rx);
    }
    hide Reach, NoGap, DataSpans, HeaderSpans;
    assert AgreeAt(w.(fwd := w.fwd[1..]), e, m);
  }

  lemma {:induction false} OpenFilesFor(o: Offered, k: nat, opens: nat)
    requires OfferOk(o) && k <= |o.items|
    ensures var fs := OpenFiles(Entries(o)[k..], opens);
            |fs| <= |o.items| - k && forall i | 0 <= i < |fs| :: RxFileFor(o, k + i, fs[i], 0)
    decreases |o.items| - k
  {
    hide Faithful;
    var rest := Entries(o)[k..];
    if rest != [] && opens != 0 {
      assert rest[0] == EntryAt(o, k) && rest[1..] == Entries(o)[k + 1..];
      NewFileFaithful(o.items[k].content, rest[0]);
      OpenFilesFor(o, k + 1, opens - 1);
    }
  }

  lemma NewFileFaithful(content: seq<byte>, e: Entry)
    requires |content| == e.size <= MAX_SIZE
    ensures Faithful(content, NewRxFile(e))
  {
  }

  /** The destinations are opened and the answer is on its way. */
  lemma FilesOpened(w: Wire, files: seq<RxFile>, p: Phase, answer: seq<Frame>)
    requires Agree(w) && RxPhase(w.rx, Idle) && w.o.Some? && p in {RxWaitData, Failed}
    requires RxFilesFor(w.o.value, files, 0)
    requires p == RxWaitData ==> Opened(w.o.value, files) && |w.rx.value.hdr| == |w.o.value.items|
    requires forall i | 0 <= i < |answer| :: BackOk(w.o.value, files, answer[i])
    ensures Agree(w.(rx := Some(w.rx.value.(files := files, phase := p)), back := w.back + answer))
  {
    hide TxPart, RxFilesFor, NoGap, Reach, DataSpans, HeaderSpans;
    var e: nat, m: nat :| AgreeAt(w, e, m);
    NoFilesYet(w.o.value, FilesOf(w.rx), e);
    var w' := w.(rx := Some(w.rx.value.(files := files, phase := p)), back := w.back + answer);
    forall i | 0 <= i < |w'.back|
      ensures BackOk(w.o.value, files, w'.back[i])
    {
      if i >= |w.back| {
        assert w'.back[i] == answer[i - |w.back|];
      }
    }
    hide BackOk, HeaderOk, DataOk;
    assert AgreeAt(w', e, m);
  }

  lemma NoFilesYet(o: Offered, files: seq<RxFile>, e: nat)
    requires OfferOk(o) && RxFilesFor(o, files, e) && files == []
    ensures e == 0 && !Opened(o, files)
  {
  }

  // ---------------------------------------------------------------- receiver: data

  /** Writing the next block extends the faithful prefix. */
  lemma {:induction false} WriteFaithful(content: seq<byte>, f: RxFile)
    requires Faithful(content, f) && f.expected < f.total
    ensures |Block(content, f.expected)| == BlockLen(f.size, f.expected)
    ensures Faithful(content, WriteBlock(f, Block(content, f.expected)))
  {
    BlockInside(f.size, f.expected);
    DR.WriteBlockOk(f, Block(content, f.expected));
    var off := f.expected * BLOCK;
    var end := Min((f.expected + 1) * BLOCK, f.size);
    assert content[..end] == content[..off] + content[off..end];
    assert Block(content, f.expected) == content[off..end];
  }

  lemma FindById(o: Offered, files: seq<RxFile>, e: nat, id: u16)
    requires RxFilesFor(o, files, e) && Opened(o, files) && 1 <= id <= |o.items|
    ensures FindRx(files, id) == id - 1 && RxFileFor(o, id - 1, files[id - 1], e)
  {
    hide Faithful;
    assert RxFileFor(o, id - 1, files[id - 1], e);
    var i := FindRx(files, id);
    assert i < |files| ==> RxFileFor(o, i, files[i], e);
  }

  lemma TakenFiles(o: Offered, files: seq<RxFile>, e: nat, i: nat)
    requires OfferOk(o) && RxFilesFor(o, files, e) && Opened(o, files) && i < |files|
    requires Base(o, i) <= e < Base(o, i) + Total(o, i)
    ensures RxFileFor(o, i, files[i], e) && files[i].expected < files[i].total
    ensures |Block(o.items[i].content, files[i].expected)| == BlockLen(files[i].size, files[i].expected)
    ensures RxFilesFor(o, files[i := WriteBlock(files[i], Block(o.items[i].content, files[i].expected))], e + 1)
  {
    hide Faithful, WriteBlock, Block, Base;
    assert RxFileFor(o, i, files[i], e);
    FileTotals(o, i, files[i]);
    WriteFaithful(o.items[i].content, files[i]);
    WriteCounts(files[i], Block(o.items[i].content, files[i].expected));
    var files' := files[i := WriteBlock(files[i], Block(o.items[i].content, files[i].expected))];
    forall k | 0 <= k < |files'|
      ensures RxFileFor(o, k, files'[k], e + 1)
    {
      assert RxFileFor(o, k, files[k], e);
      ShareStep(o, i, k, e);
    }
    ShareStep(o, i, i, e);
  }

  lemma FileTotals(o: Offered, i: nat, f: RxFile)
    requires i < |o.items| && Faithful(o.items[i].content, f)
    ensures RxFileOk(f) && f.total == Total(o, i) && f.size == |o.items[i].content|
  {
  }

  lemma WriteCounts(f: RxFile, payload: seq<byte>)
    requires RxFileOk(f) && f.expected < f.total && |payload| == BlockLen(f.size, f.expected)
    ensures var g := WriteBlock(f, payload); g.id == f.id && g.expected == f.expected + 1 && (f.complete ==> g.complete)
  {
  }

  /** What a receiver in RX_WAIT_DATA finds in the next data frame: never a reason to reset. */
  ghost predicate Welcome(t: Rx, f: Frame)
    requires f.Data?
  {
    var i := FindRx(t.files, f.id);
    && f.trans == t.trans && i < |t.files| && RxFileOk(t.files[i])
    && f.num < t.files[i].total && f.num <= t.files[i].expected
    && (f.num == t.files[i].expected ==> |f.payload| == BlockLen(t.files[i].size, f.num))
  }

  lemma DataExpected(w: Wire, e: nat, m: nat)
    requires w.o.Some? && OfferOk(w.o.value) && AgreeAt(w, e, m)
    requires w.open && w.fwd != [] && w.fwd[0].Data? && RxPhase(w.rx, RxWaitData)
    ensures Welcome(w.rx.value, w.fwd[0]) && DataOk(w.o.value, w.fwd[0])
    ensures var i := w.fwd[0].id - 1;
            && FindRx(w.rx.value.files, w.fwd[0].id) == i && Opened(w.o.value, w.rx.value.files)
            && (w.fwd[0].num == w.rx.value.files[i].expected ==> Base(w.o.value, i) + w.fwd[0].num == e)
            && (w.fwd[0].num < w.rx.value.files[i].expected ==> Base(w.o.value, i) + w.fwd[0].num < e)
    ensures DataSpan(w.o.value, w.fwd[0]).lo <= e
  {
    hide TxPart, Back, Cross, RxFilesFor, Faithful, Block, Base, Entries;
    var o := w.o.value;
    var f := w.fwd[0];
    assert FwdOk(o, IsPhase(w.tx, TxDone), Opened(o, FilesOf(w.rx)), f);
    SpansPop(o, w.fwd);
    GapPop(DataSpans(o, w.fwd), e);
    FindById(o, w.rx.value.files, e, f.id);
    FileTotals(o, f.id - 1, w.rx.value.files[f.id - 1]);
    BlockLength(o.items[f.id - 1].content, f.num);
  }

  lemma BlockLength(content: seq<byte>, num: nat)
    requires num < Blocks(|content|, BLOCK)
    ensures num * BLOCK <= |content| && |Block(content, num)| == BlockLen(|content|, num)
  {
    BlockInside(|content|, num);
  }

  ghost predicate FilesGrow(o: Offered, files: seq<RxFile>, files': seq<RxFile>) {
    && |files'| == |files|
    && (forall i | 0 <= i < |files| ::
          files[i].expected <= files'[i].expected && (files[i].complete ==> files'[i].complete))
  }

  lemma BackGrows(o: Offered, files: seq<RxFile>, files': seq<RxFile>, back: seq<Frame>)
    requires FilesGrow(o, files, files') && Back(o, files, back)
    ensures Back(o, files', back)
  {
    forall i | 0 <= i < |back|
      ensures BackOk(o, files', back[i])
    {
      var f := back[i];
      assert BackOk(o, files, f);
      if f.Ack? {
        forall k | 0 <= k < |f.acks|
          ensures AckOk(o, files', f.acks[k])
        {
          assert AckOk(o, files, f.acks[k]);
        }
      }
    }
  }

  lemma CrossGrows(o: Offered, tx: Option<Tx>, files: seq<RxFile>, files': seq<RxFile>, done: bool)
    requires FilesGrow(o, files, files') && Cross(o, tx, files, done)
    ensures Cross(o, tx, files', done)
  {
    if tx.Some? {
      forall i | 0 <= i < |o.items|
        ensures AckedFor(o, i, tx.value.files[i], files')
      {
        assert AckedFor(o, i, tx.value.files[i], files);
      }
    }
  }

  /** The next block is written. */
  lemma DataTaken(w: Wire, e: nat, m: nat)
    requires w.o.Some? && OfferOk(w.o.value) && AgreeAt(w, e, m)
    requires w.open && w.fwd != [] && w.fwd[0].Data? && RxPhase(w.rx, RxWaitData)
    requires var i := FindRx(w.rx.value.files, w.fwd[0].id);
             i < |w.rx.value.files| && w.fwd[0].num == w.rx.value.files[i].expected
    ensures var t := w.rx.value; var f := w.fwd[0]; var i := FindRx(t.files, f.id);
            && Welcome(t, f)
            && Agree(w.(fwd := w.fwd[1..],
                        rx := Some(t.(files := t.files[i := WriteBlock(t.files[i], f.payload)], ackPending := true))))
  {
    hide RxFilesFor, WriteBlock, Block, Base, Total, Flow, RxFileOk, Welcome, AgreeAt, Agree, Share, OfferOk, Faithful;
    DataExpected(w, e, m);
    WelcomeSize(w.rx.value, w.fwd[0]);
    DataParts(w, e, m);
    var o := w.o.value;
    var t := w.rx.value;
    var f := w.fwd[0];
    var i := f.id - 1;
    TakenFiles(o, t.files, e, i);
    WriteCounts(t.files[i], f.payload);
    var files' := t.files[i := WriteBlock(t.files[i], f.payload)];
    var rx' := Some(t.(files := files', ackPending := true));
    assert FilesGrow(o, t.files, files');
    FlowTake(w, e, m, rx');
    DataAssemble(w, e, m, rx');
  }

  lemma WelcomeSize(t: Rx, f: Frame)
    requires f.Data? && Welcome(t, f)
    ensures var i := FindRx(t.files, f.id);
            && i < |t.files| && RxFileOk(t.files[i])
            && (f.num == t.files[i].expected
                ==> f.num < t.files[i].total && |f.payload| == BlockLen(t.files[i].size, f.num))
  {
  }

  lemma DataParts(w: Wire, e: nat, m: nat)
    requires w.o.Some? && OfferOk(w.o.value) && AgreeAt(w, e, m)
    ensures Flow(w.o.value, w.tx, w.fwd, w.rx, w.open, e, m) && RxFilesFor(w.o.value, FilesOf(w.rx), e)
  {
  }

  lemma DataAssemble(w: Wire, e: nat, m: nat, rx': Option<Rx>)
    requires w.o.Some? && OfferOk(w.o.value) && AgreeAt(w, e, m) && w.fwd != []
    requires RxPhase(w.rx, RxWaitData) && RxPhase(rx', RxWaitData)
    requires rx'.value == w.rx.value.(files := FilesOf(rx'), ackPending := true)
    requires FilesGrow(w.o.value, FilesOf(w.rx), FilesOf(rx')) && RxFilesFor(w.o.value, FilesOf(rx'), e + 1)
    requires Flow(w.o.value, w.tx, w.fwd[1..], rx', w.open, e + 1, m)
    ensures Agree(w.(fwd := w.fwd[1..], rx := rx'))
  {
    hide TxPart, RxFilesFor, FwdOk, Back, Cross, Flow, Entries;
    BackGrows(w.o.value, FilesOf(w.rx), FilesOf(rx'), w.back);
    CrossGrows(w.o.value, w.tx, FilesOf(w.rx), FilesOf(rx'), false);
    assert AgreeAt(w.(fwd := w.fwd[1..], rx := rx'), e + 1, m);
  }

  /** A duplicate is dropped. */
  lemma DataDropped(w: Wire, e: nat, m: nat)
    requires w.o.Some? && OfferOk(w.o.value) && AgreeAt(w, e, m)
    requires w.open && w.fwd != [] && w.fwd[0].Data? && RxPhase(w.rx, RxWaitData)
    requires var i := FindRx(w.rx.value.files, w.fwd[0].id);
             i < |w.rx.value.files| && w.fwd[0].num < w.rx.value.files[i].expected
    ensures Agree(w.(fwd := w.fwd[1..]))
  {
    hide TxPart, RxPart, Block, Base, Entries, FwdOk, Back, Cross, Welcome, DataOk, Flow, OfferOk;
    DataExpected(w, e, m);
    FlowTake(w, e, m, w.rx);
    assert AgreeAt(w.(fwd := w.fwd[1..]), e, m);
  }

  // ---------------------------------------------------------------- receiver: answers

  /** A truthful backward frame is sent. */
  lemma BackSent(w: Wire, f: Frame)
    requires Agree(w) && w.o.Some? && BackOk(w.o.value, FilesOf(w.rx), f)
    ensures Agree(w.(back := w.back + [f]))
  {
    hide TxPart, RxPart, Fwd, Cross, Flow, BackOk;
    var e: nat, m: nat :| AgreeAt(w, e, m);
    assert AgreeAt(w.(back := w.back + [f]), e, m);
  }

  /** Acks are given to the first 39 files that have received anything, and those are the first nonempty ones. */
  lemma {:induction false} AckListOk(o: Offered, files: seq<RxFile>, e: nat, k: nat, room: nat)
    requires RxFilesFor(o, files, e) && Opened(o, files) && k <= |files| && RxFilesOk(files[k..])
    requires Rank(o, k) == MAX_ACKS - room || forall j | k <= j < |files| :: files[j].expected == 0
    ensures forall a | 0 <= a < |AckList(files[k..], room)| :: AckOk(o, files, AckList(files[k..], room)[a])
    decreases |files| - k
  {
    hide Faithful, RxFileOk, Total, Base, Share;
    if k < |files| && room > 0 {
      var f := files[k];
      assert files[k..][0] == f && files[k..][1..] == files[k + 1..];
      assert RxFileFor(o, k, f, e);
      ShareTotal(o, k, e);
      if f.expected == 0 && Total(o, k) > 0 {
        forall j | k + 1 <= j < |files|
          ensures files[j].expected == 0
        {
          assert RxFileFor(o, j, files[j], e);
          if files[j].expected > 0 {
            ShareOrder(o, k, j, e);
          }
        }
      }
      if f.expected > 0 {
        AckListOk(o, files, e, k + 1, room - 1);
        assert RxFileOk(files[k..][0]);
        assert AckOk(o, files, AckOf(f)) by {
          FileTotals(o, k, f);
        }
      } else {
        AckListOk(o, files, e, k + 1, room);
      }
    }
  }

  lemma ShareTotal(o: Offered, i: nat, m: nat)
    requires i < |o.items|
    ensures Share(o, i, m) <= Total(o, i)
  {
  }

  lemma AckAnswer(w: Wire)
    requires Agree(w) && RxPhase(w.rx, RxWaitData)
    ensures w.o.Some? && RxFilesOk(w.rx.value.files)
    ensures BackOk(w.o.value, FilesOf(w.rx), Ack(w.rx.value.trans, AckList(w.rx.value.files, MAX_ACKS)))
  {
    hide TxPart, Fwd, Back, Cross, Flow, Entries;
    var e: nat, m: nat :| AgreeAt(w, e, m);
    var files := w.rx.value.files;
    RxFilesFine(w.o.value, files, e);
    assert files[0..] == files;
    hide RxFilesFor;
    AckListOk(w.o.value, files, e, 0, MAX_ACKS);
  }

  lemma RxFilesFine(o: Offered, files: seq<RxFile>, e: nat)
    requires RxFilesFor(o, files, e)
    ensures RxFilesOk(files)
  {
    forall i | 0 <= i < |files|
      ensures RxFileOk(files[i])
    {
      assert RxFileFor(o, i, files[i], e);
    }
  }

  /** The receiver's books change; nothing is taken. */
  lemma RxChanges(w: Wire, t': Rx)
    requires Agree(w) && w.rx.Some? && w.o.Some? && OfferOk(w.o.value) && w.rx.value.phase !in {RxDone, Failed}
    requires t'.files == w.rx.value.files && t'.hdr == w.rx.value.hdr && RxHead(w.o.value, t')
    requires t'.phase == RxDone ==> IsPhase(w.tx, TxDone)
    ensures Agree(w.(rx := Some(t')))
  {
    hide TxPart, RxFilesFor, Fwd, Back, NoGap, Reach, DataSpans, HeaderSpans, RxHead;
    var e: nat, m: nat :| AgreeAt(w, e, m);
    assert AgreeAt(w.(rx := Some(t')), e, m);
  }

  lemma RxFacts(w: Wire)
    requires Agree(w) && w.rx.Some?
    ensures w.o.Some? && OfferOk(w.o.value) && RxHead(w.o.value, w.rx.value) && RxOk(w.rx.value)
  {
    hide TxPart, RxFilesFor, Fwd, Back, Flow, Cross;
    var e: nat, m: nat :| AgreeAt(w, e, m);
    RxFilesFine(w.o.value, w.rx.value.files, e);
  }

  /** A DONE_ACK on the way means that the sender has reported success. */
  lemma DoneAckHead(w: Wire)
    requires Agree(w) && w.fwd != [] && w.fwd[0].DoneAck?
    ensures w.o.Some? && IsPhase(w.tx, TxDone) && w.fwd[0].trans == w.o.value.trans
  {
    hide TxPart, RxPart, Back, Flow, Cross, HeaderOk, DataOk;
  }

  lemma DoneAckTaken(w: Wire)
    requires Agree(w) && w.fwd != [] && w.fwd[0].DoneAck?
    ensures Agree(w.(fwd := w.fwd[1..]))
  {
    hide TxPart, Back, RxPart, Cross, FwdOk;
    assert w.o.Some?;
    var e: nat, m: nat :| AgreeAt(w, e, m);
    SpansPop(w.o.value, w.fwd);
    if w.open {
      GapPop(DataSpans(w.o.value, w.fwd), e);
      if !RxPhase(w.rx, Failed) {
        GapPop(HeaderSpans(w.fwd), HeaderCount(w.rx));
      }
    }
    hide Reach, NoGap;
    assert AgreeAt(w.(fwd := w.fwd[1..]), e, m);
  }
}
