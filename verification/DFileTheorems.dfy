/** What the DFile transfer promises, over every run of two connections. */
module DFileTheorems {
  import opened Bytes
  import opened DFileCore
  import opened DFileLink
  import opened DFileSides
  import opened DFileNet
  import DR = DFileResults
  import DF = DFileFrame
  import opened Deframe

  // ---------------------------------------------------------------- blocks

  lemma DivBelow(x: nat, d: nat, q: nat)
    requires d > 0
    ensures x / d < q <==> x < q * d
  {
    assert x == x / d * d + x % d;
    if x / d < q {
      assert (x / d + 1) * d <= q * d;
    } else {
      assert q * d <= x / d * d;
    }
  }

  /** The 32-bit block counter holds the block count of every allowed file exactly from block size 129 on. */
  lemma {:induction false} BlockCountFits(block: nat)
    requires block > 0
    ensures (forall size: nat | size <= MAX_SIZE :: Blocks(size, block) < 0x1_0000_0000) <==> 129 <= block
  {
    if 129 <= block {
      forall size: nat | size <= MAX_SIZE
        ensures Blocks(size, block) < 0x1_0000_0000
      {
        assert 0x1_0000_0000 * 129 <= 0x1_0000_0000 * block;
        DivBelow(size + block - 1, block, 0x1_0000_0000);
      }
    } else {
      DivBelow(MAX_SIZE + block - 1, block, 0x1_0000_0000);
      assert Blocks(MAX_SIZE, block) >= 0x1_0000_0000;
    }
  }

  /**
   * The block size a SETTING leads to: the default when nothing is advertised, and one for which every
   * block count fits unless the peer advertises 64 to 128.
   */
  lemma {:induction false} NegotiatedBlockSize(advertised: u32)
    ensures BlockSize(0) == BLOCK && 64 <= BlockSize(advertised) <= 14706
    ensures (forall size: nat | size <= MAX_SIZE :: Blocks(size, BlockSize(advertised)) < 0x1_0000_0000)
            <==> !(64 <= advertised <= 128)
  {
    BlockCountFits(BlockSize(advertised));
  }

  function BlocksOf(content: seq<byte>): seq<seq<byte>> {
    seq(Blocks(|content|, BLOCK), i requires 0 <= i < Blocks(|content|, BLOCK) => Block(content, i))
  }

  /** The blocks of a file are the file. */
  lemma {:induction false} BlocksPartition(content: seq<byte>)
    ensures Flat(BlocksOf(content)) == content
  {
    var n := Blocks(|content|, BLOCK);
    BlocksPrefix(content, n);
    assert BlocksOf(content)[..n] == BlocksOf(content);
    assert content[..|content|] == content;
  }

  lemma {:induction false} BlocksPrefix(content: seq<byte>, k: nat)
    requires k <= Blocks(|content|, BLOCK)
    ensures Flat(BlocksOf(content)[..k]) == content[..Min(k * BLOCK, |content|)]
  {
    if k > 0 {
      BlocksPrefix(content, k - 1);
      FlatStep(BlocksOf(content), k - 1);
      BlockInside(|content|, k - 1);
    }
  }

  // ---------------------------------------------------------------- agreement

  /** How many files are not empty. */
  function NonEmpty(items: seq<Item>): nat {
    if items == [] then 0 else NonEmpty(items[..|items| - 1]) + (if items[|items| - 1].content != [] then 1 else 0)
  }

  /** The blocks taken so far are on disk, and they are the beginning of the source. */
  predicate Copied(content: seq<byte>, f: RxFile) {
    && |f.disk| == f.size == |content| && (f.complete ==> f.disk == content)
    && var n := Min(f.expected * BLOCK, f.size); f.disk[..n] == content[..n]
  }

  /**
   * Sender `s`, receiver `r`: what is written is the beginning of what was offered; success at the sender
   * means that every file is on the receiver's disk; success at the receiver means success at the sender.
   */
  ghost predicate Truthful(s: End, r: End) {
    && (r.conn.rx.Some? ==> s.offer.Some? && |r.conn.rx.value.files| <= |s.offer.value.items|)
    && (forall i | 0 <= i < |FilesOf(r.conn.rx)| :: Copied(s.offer.value.items[i].content, FilesOf(r.conn.rx)[i]))
    && (IsPhase(s.conn.tx, TxDone) ==>
          && s.offer.Some? && r.conn.rx.Some? && |FilesOf(r.conn.rx)| == |s.offer.value.items|
          && (forall i | 0 <= i < |s.offer.value.items| :: FilesOf(r.conn.rx)[i].disk == s.offer.value.items[i].content)
          && NonEmpty(s.offer.value.items) <= MAX_ACKS)
    && (RxPhase(r.conn.rx, RxDone) ==> IsPhase(s.conn.tx, TxDone))
  }

  lemma FaithfulMeans(content: seq<byte>, f: RxFile)
    requires Faithful(content, f)
    ensures Copied(content, f)
  {
    if f.complete {
      assert Min(f.expected * BLOCK, f.size) == f.size;
      assert f.disk[..f.size] == f.disk && content[..f.size] == content;
    }
  }

  lemma {:induction false} RankIsNonEmpty(o: Offered, i: nat)
    requires i <= |o.items|
    ensures Rank(o, i) == NonEmpty(o.items[..i])
  {
    if i > 0 {
      RankIsNonEmpty(o, i - 1);
      assert o.items[..i][..i - 1] == o.items[..i - 1];
      assert Total(o, i - 1) > 0 <==> o.items[i - 1].content != [];
    }
  }

  /** Only the first 39 nonempty files are ever acked. */
  lemma {:induction false} RankBounded(o: Offered, i: nat)
    requires i <= |o.items| && forall k | 0 <= k < i :: Total(o, k) == 0 || Rank(o, k) < MAX_ACKS
    ensures Rank(o, i) <= MAX_ACKS
  {
    hide Total, Rank;
    RankIs(o, i);
    if i > 0 {
      RankBounded(o, i - 1);
      assert Total(o, i - 1) == 0 || Rank(o, i - 1) < MAX_ACKS;
    }
  }

  lemma RankIs(o: Offered, i: nat)
    requires i <= |o.items|
    ensures Rank(o, i) == if i == 0 then 0 else Rank(o, i - 1) + (if Total(o, i - 1) > 0 then 1 else 0)
  {
  }

  lemma AgreeMeans(w: Wire)
    requires Agree(w)
    ensures w.rx.Some? ==> w.o.Some? && |w.rx.value.files| <= |w.o.value.items|
    ensures forall i | 0 <= i < |FilesOf(w.rx)| :: Faithful(w.o.value.items[i].content, FilesOf(w.rx)[i])
    ensures RxPhase(w.rx, RxDone) ==> IsPhase(w.tx, TxDone)
    ensures IsPhase(w.tx, TxDone) ==>
              w.o.Some? && Written(w.o.value, FilesOf(w.rx)) && |w.tx.value.files| == |w.o.value.items|
    ensures IsPhase(w.tx, TxDone) ==> AllAcked(w.tx.value) && 0 < |w.o.value.items|
    ensures IsPhase(w.tx, TxDone) ==>
              forall i | 0 <= i < |w.o.value.items| :: AckedFor(w.o.value, i, w.tx.value.files[i], FilesOf(w.rx))
  {
    hide TxPart, Fwd, Back, Flow, Faithful, AckedFor, AllAcked;
    if w.o.Some? {
      var e: nat, m: nat :| AgreeAt(w, e, m);
      assert forall i | 0 <= i < |FilesOf(w.rx)| :: RxFileFor(w.o.value, i, FilesOf(w.rx)[i], e);
    }
  }

  lemma DoneHasFewFiles(o: Offered, t: Tx, files: seq<RxFile>)
    requires AllAcked(t) && |t.files| == |o.items|
    requires forall i | 0 <= i < |o.items| :: AckedFor(o, i, t.files[i], files)
    ensures NonEmpty(o.items) <= MAX_ACKS
  {
    var n := |o.items|;
    hide Total, Rank;
    forall k | 0 <= k < n
      ensures Total(o, k) == 0 || Rank(o, k) < MAX_ACKS
    {
      assert t.files[k].ackedAll && AckedFor(o, k, t.files[k], files);
    }
    RankBounded(o, n);
    RankIsNonEmpty(o, n);
    assert o.items[..n] == o.items;
  }

  lemma LineTruthful(s: End, r: End)
    requires Inv2(s, r) || Inv2(r, s)
    ensures Truthful(s, r)
  {
    hide Agree, DR.Sound, Stuck, AllAcked, AckedFor, Faithful, NonEmpty, Written;
    var w := Line(s, r);
    AgreeMeans(w);
    forall i | 0 <= i < |FilesOf(w.rx)|
      ensures Copied(w.o.value.items[i].content, FilesOf(w.rx)[i])
    {
      FaithfulMeans(w.o.value.items[i].content, FilesOf(w.rx)[i]);
    }
    if IsPhase(w.tx, TxDone) {
      DoneHasFewFiles(w.o.value, w.tx.value, FilesOf(w.rx));
      AllThere(w.o.value, FilesOf(w.rx));
    }
  }

  lemma AllThere(o: Offered, files: seq<RxFile>)
    requires Written(o, files) && forall i | 0 <= i < |files| :: i < |o.items| && Copied(o.items[i].content, files[i])
    ensures |files| == |o.items| && forall i | 0 <= i < |o.items| :: files[i].disk == o.items[i].content
  {
    forall i | 0 <= i < |o.items|
      ensures files[i].disk == o.items[i].content
    {
      assert Copied(o.items[i].content, files[i]) && files[i].complete;
    }
  }

  /**
   * Agreement, over every run of two connections on ordered links whose failures stay, with transfers in
   * both directions at once: see `Truthful`. In particular a transfer of more than 39 nonempty files never
   * succeeds, because a flush acks the first 39 only.
   */
  lemma {:induction false} TransfersAgree(dirA: bool, linkA: seq<bool>, dirB: bool, linkB: seq<bool>, moves: seq<Move>)
    requires DR.Sticky(linkA) && DR.Sticky(linkB) && IsRun(Start(dirA, linkA, dirB, linkB), moves)
    ensures var p := After(Start(dirA, linkA, dirB, linkB), moves);
            Truthful(p.a, p.b) && Truthful(p.b, p.a)
  {
    hide IsRun, After, Inv2, Truthful, Start, DR.Sticky;
    StartInv(dirA, linkA, dirB, linkB);
    RunKeeps(Start(dirA, linkA, dirB, linkB), moves);
    var p := After(Start(dirA, linkA, dirB, linkB), moves);
    LineTruthful(p.a, p.b);
    LineTruthful(p.b, p.a);
  }

  function Output(p: Pair, ofA: bool): seq<Frame> {
    if ofA then p.a.conn.out else p.b.conn.out
  }

  /**
   * The frames of the model are the bytes on the wire: in every run, whatever part of what one end (A or B)
   * has sent has reached the other, in whatever reads, decodes to the first frames sent.
   */
  lemma {:induction false} WireFaithful(dirA: bool, linkA: seq<bool>, dirB: bool, linkB: seq<bool>,
                                        moves: seq<Move>, ofA: bool, version: seq<byte>, n: nat, tail: seq<byte>,
                                        pieces: seq<seq<byte>>)
    requires DR.Sticky(linkA) && DR.Sticky(linkB) && IsRun(Start(dirA, linkA, dirB, linkB), moves)
    requires |version| == 64 && n <= |Output(After(Start(dirA, linkA, dirB, linkB), moves), ofA)|
    requires DF.HeadOf(tail).NeedMore?
    ensures DR.Encodable(Output(After(Start(dirA, linkA, dirB, linkB), moves), ofA))
    ensures var sent := Output(After(Start(dirA, linkA, dirB, linkB), moves), ofA)[..n];
            Flat(pieces) == Flat(DF.EncodeAll(sent, version)) + tail ==>
              && Stable(DF.HeadOf)
              && var c := FeedAll(DF.HeadOf, pieces);
                 && c.rest == tail && |c.frames| == n
                 && forall i | 0 <= i < n ::
                      DF.HeadOf(c.frames[i]) == Whole(|c.frames[i]|) && DF.Decode(c.frames[i]) == sent[i]
  {
    hide IsRun, After, Inv2, Start, DR.Sticky, DR.Sound, DF.HeadOf, DF.Decode, DF.Encode, FeedAll, Stable,
      DF.Sendable;
    StartInv(dirA, linkA, dirB, linkB);
    RunKeeps(Start(dirA, linkA, dirB, linkB), moves);
    var p := After(Start(dirA, linkA, dirB, linkB), moves);
    OutEncodable(p);
    var sent := Output(p, ofA)[..n];
    if Flat(pieces) == Flat(DF.EncodeAll(sent, version)) + tail {
      DF.WireRoundTrip(sent, version, tail, pieces);
    }
  }

  lemma OutEncodable(p: Pair)
    requires Inv(p)
    ensures DR.Encodable(p.a.conn.out) && DR.Encodable(p.b.conn.out)
  {
    hide Agree;
  }

  // ---------------------------------------------------------------- honest peers and resets

  /**
   * A data frame of an honest peer, read where it can be written, leaves the connection open if and only
   * if the receiver is still in RX_WAIT_DATA: no gap, bad size or unknown block ever arrives there, and a
   * late retransmission closes the connection everywhere else.
   */
  lemma {:induction false} DataResetsIff(me: End, you: End, disk: Disk)
    requires Inv2(me, you) && Enabled(Receive(disk), me, you) && you.conn.out[me.taken].Data? && disk.writes
    ensures ConnOk(me.conn)
    ensures Act(Receive(disk), me, you).conn.state != Closing <==> RxPhase(me.conn.rx, RxWaitData)
    ensures RxPhase(me.conn.rx, RxWaitData) ==> RxPhase(Act(Receive(disk), me, you).conn.rx, RxWaitData)
  {
    hide AgreeAt, WriteBlock, Stuck, DR.Sound;
    DR.SoundRx(me.conn);
    var f := you.conn.out[me.taken];
    var w := Line(you, me);
    assert w.fwd[0] == f;
    if RxPhase(me.conn.rx, RxWaitData) {
      SomeOffer(w);
      var e: nat, m: nat :| AgreeAt(w, e, m);
      DataExpected(w, e, m);
      hide RxOk, ConnOk, Agree, DataOk;
      WelcomeStays(me.conn, f, disk);
    } else {
      ResetCloses(me.conn, f.trans, RST_INTERNAL);
    }
  }

  lemma WelcomeStays(c: Conn, f: Frame, disk: Disk)
    requires ConnOk(c) && f.Data? && RxPhase(c.rx, RxWaitData) && Welcome(c.rx.value, f) && c.state != Closing
             && disk.writes
    ensures Handle(c, f, disk).state != Closing && RxPhase(Handle(c, f, disk).rx, RxWaitData)
  {
    hide WriteBlock, TxFilesOk, Reset;
  }

  lemma ResetCloses(c: Conn, trans: u16, code: u16)
    ensures Reset(c, trans, code).state == Closing
  {
  }

  // ---------------------------------------------------------------- the pump

  /** Against any peer, and however often the pump runs: no block is sent more than twice. */
  lemma {:induction false} NoBlockThrice(hasDir: bool, link: seq<bool>, events: seq<DR.Event>, id: int, num: int)
    requires forall i | 0 <= i < |events| :: DR.EventOk(events[i])
    ensures DR.Possible(DR.Open(hasDir, link), events)
    ensures DR.Sends(DR.After(DR.Open(hasDir, link), events).out, id, num) <= 2
  {
    hide DR.Possible, DR.After, DR.Open, DR.Sound;
    DR.OpenSound(hasDir, link);
    DR.RunGood(DR.Open(hasDir, link), events);
    SendsBounded(DR.After(DR.Open(hasDir, link), events), id, num);
  }

  lemma SendsBounded(c: Conn, id: int, num: int)
    requires DR.Sound(c)
    ensures DR.Sends(c.out, id, num) <= 2
  {
    hide ConnOk, DR.Reported, DR.Sends;
    assert DR.Sends(c.out, id, num) <= DR.Allowance(DR.TxFiles(c), id, num);
  }

  /** The frames a file list still asks for: every new block and its one repetition. */
  function Work(files: seq<TxFile>): int {
    if files == [] then 0
    else
      var f := files[|files| - 1];
      Work(files[..|files| - 1]) + 2 * (f.total - f.next) + |f.retrans|
  }

  lemma {:induction false} WorkUpdate(files: seq<TxFile>, i: nat, g: TxFile)
    requires i < |files|
    ensures Work(files[i := g]) == Work(files) - (2 * (files[i].total - files[i].next) + |files[i].retrans|)
                                   + (2 * (g.total - g.next) + |g.retrans|)
    decreases |files|
  {
    var k := |files| - 1;
    if i < k {
      WorkUpdate(files[..k], i, g);
      assert files[i := g][..k] == files[..k][i := g];
    } else {
      assert files[i := g][..k] == files[..k];
    }
  }

  function DataCount(out: seq<Frame>): nat {
    if out == [] then 0 else DataCount(out[..|out| - 1]) + (if out[|out| - 1].Data? then 1 else 0)
  }

  lemma DataCountAppend(out: seq<Frame>, f: Frame)
    ensures DataCount(out + [f]) == DataCount(out) + (if f.Data? then 1 else 0)
  {
    assert (out + [f])[..|out|] == out;
  }

  /** A pump sends at most its budget of data frames, and each one takes exactly one off the work left. */
  lemma {:induction false} PumpWork(c: Conn, due: bool, budget: nat, readable: nat) returns (n: nat)
    requires c.tx.Some? && TxOk(c.tx.value)
    ensures var d := Pump(c, due, budget, readable);
            && n <= budget && DataCount(d.out) == DataCount(c.out) + n
            && Work(DR.TxFiles(d)) == Work(DR.TxFiles(c)) - n
    decreases budget
  {
    hide TxFilesOk, DataFrame, Wants, Advance, Work, DataCount, SendBlock;
    n := 0;
    var t := c.tx.value;
    var i := Pick(t.files, due);
    if budget != 0 && i != |t.files| {
      DR.WantsDue(t.files[i], due);
      DR.FileOk(t, i);
      if readable == 0 || !Works(c) {
        StopWork(c, i);
      } else {
        BlockWork(c, i);
        n := PumpWork(SendBlock(c, i), due && t.files[i].next < t.files[i].total, budget - 1, readable - 1);
        n := n + 1;
      }
    }
  }

  lemma BlockWork(c: Conn, i: nat)
    requires c.tx.Some? && TxOk(c.tx.value) && i < |c.tx.value.files| && Wants(c.tx.value.files[i], true) && Works(c)
    ensures var d := SendBlock(c, i);
            DataCount(d.out) == DataCount(c.out) + 1 && Work(DR.TxFiles(d)) == Work(DR.TxFiles(c)) - 1
  {
    var f := c.tx.value.files[i];
    DataCountAppend(c.out, DataFrame(c.tx.value.trans, f));
    WorkUpdate(c.tx.value.files, i, Advance(f));
    hide Work, DataCount;
  }

  lemma StopWork(c: Conn, i: nat)
    requires c.tx.Some? && i < |c.tx.value.files| && TxFileOk(c.tx.value.files[i]) && Wants(c.tx.value.files[i], true)
    ensures DataCount(FailTx(c, true).out) == DataCount(c.out) && DR.TxFiles(FailTx(c, true)) == DR.TxFiles(c)
    ensures !Works(c) ==> var d := FailTx(TrySend(c, DataFrame(c.tx.value.trans, c.tx.value.files[i])), false);
                          DataCount(d.out) == DataCount(c.out) && DR.TxFiles(d) == DR.TxFiles(c)
  {
    hide DataCount, DataFrame, Wants;
    DataCountAppend(c.out, Rst(c.tx.value.trans, RST_CANCEL));
  }

  // ---------------------------------------------------------------- the file list

  /** Reading header frames one after the other. */
  function ReadHeaders(hdr: seq<Entry>, frames: seq<Frame>): seq<Entry>
    requires forall i | 0 <= i < |frames| :: frames[i].FileHeader?
    decreases |frames|
  {
    if frames == [] then hdr
    else ReadHeaders(Accumulate(hdr, frames[0].entries, frames[0].node).0, frames[1..])
  }

  function Repeat(frames: seq<Frame>, n: nat): seq<Frame> {
    if n == 0 then [] else frames + Repeat(frames, n - 1)
  }

  lemma {:induction false} RepeatKind(frames: seq<Frame>, n: nat)
    requires forall i | 0 <= i < |frames| :: frames[i].FileHeader?
    ensures forall i | 0 <= i < |Repeat(frames, n)| :: Repeat(frames, n)[i].FileHeader?
  {
    if n > 0 {
      RepeatKind(frames, n - 1);
    }
  }

  /** Every name fits a frame, so every split makes progress. */
  lemma SplitProgress(o: Offered, k: nat)
    requires OfferOk(o) && k < |o.items|
    ensures 0 < Fitting(Entries(o)[k..], HEADER_CAP - 10) <= |o.items| - k
  {
    assert Entries(o)[k..][0] == EntryAt(o, k);
    assert NameOk(o.items[k].name);
  }

  /** Reading the frames from entry `k` on, when `h` entries are known, completes the list. */
  lemma {:induction false} ReadList(o: Offered, k: nat, h: nat, more: seq<Frame>)
    requires OfferOk(o) && k <= h <= |o.items|
    requires forall i | 0 <= i < |more| :: more[i].FileHeader?
    ensures var frames := HeaderFrames(o.trans, |o.items|, Entries(o)[k..]);
            && (forall i | 0 <= i < |frames + more| :: (frames + more)[i].FileHeader?)
            && ReadHeaders(Entries(o)[..h], frames + more) == ReadHeaders(Entries(o), more)
    decreases |o.items| - k
  {
    hide Entries, OfferOk, Accumulate, Fitting;
    var es := Entries(o);
    ListSize(o);
    var frames := HeaderFrames(o.trans, |o.items|, es[k..]);
    DR.HeaderFramesKind(o.trans, |o.items|, es[k..]);
    if k == |o.items| {
      NoFrames(o.trans, |o.items|);
      assert es[k..] == [] && es[..h] == es;
      assert frames + more == more;
    } else {
      SplitProgress(o, k);
      var n := Fitting(es[k..], HEADER_CAP - 10);
      assert es[k..][..n] == es[k..k + n] && es[k..][n..] == es[k + n..];
      AccumulatePrefix(o, h, k, k + n);
      var rest := HeaderFrames(o.trans, |o.items|, es[k + n..]);
      ReadList(o, k + n, if k + n > h then k + n else h, more);
      assert (frames + more)[0] == frames[0] && (frames + more)[1..] == rest + more;
    }
  }

  lemma NoFrames(trans: u16, node: u16)
    ensures HeaderFrames(trans, node, []) == []
  {
  }

  lemma ListSize(o: Offered)
    requires OfferOk(o)
    ensures |Entries(o)| == |o.items| && |o.items| <= MAX_FILES
  {
  }

  /** The list arrives whole and in order, however often it is repeated. */
  lemma {:induction false} ListRoundTrip(o: Offered, times: nat)
    requires OfferOk(o) && times > 0
    ensures var frames := Repeat(HeaderFrames(o.trans, |o.items|, Entries(o)), times);
            && (forall i | 0 <= i < |frames| :: frames[i].FileHeader?)
            && ReadHeaders([], frames) == Entries(o)
    decreases times
  {
    hide OfferOk, Entries, HeaderFrames;
    ListSize(o);
    assert Entries(o)[0..] == Entries(o) && Entries(o)[..0] == [];
    DR.HeaderFramesKind(o.trans, |o.items|, Entries(o));
    var frames := HeaderFrames(o.trans, |o.items|, Entries(o));
    RepeatKind(frames, times - 1);
    ReadList(o, 0, 0, Repeat(frames, times - 1));
    ListAgain(o, times - 1);
  }

  lemma {:induction false} ListAgain(o: Offered, times: nat)
    requires OfferOk(o)
    ensures var frames := Repeat(HeaderFrames(o.trans, |o.items|, Entries(o)), times);
            && (forall i | 0 <= i < |frames| :: frames[i].FileHeader?)
            && ReadHeaders(Entries(o), frames) == Entries(o)
    decreases times
  {
    hide OfferOk, Entries, HeaderFrames;
    ListSize(o);
    if times > 0 {
      assert Entries(o)[0..] == Entries(o) && Entries(o)[..|o.items|] == Entries(o);
      DR.HeaderFramesKind(o.trans, |o.items|, Entries(o));
      var frames := HeaderFrames(o.trans, |o.items|, Entries(o));
      RepeatKind(frames, times - 1);
      ReadList(o, 0, |o.items|, Repeat(frames, times - 1));
      ListAgain(o, times - 1);
    }
  }
}
