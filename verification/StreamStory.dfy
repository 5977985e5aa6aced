/** The receiver of a sealed file follows the frames the sender queued, at whatever point the stream stands. */
module StreamStory {
  import opened Bytes
  import opened Vtp
  import opened StreamFile

  /** One frame as it was queued. */
  datatype Sent = Sent(nonce: seq<byte>, stamp: u32, data: seq<byte>)

  /** The file, its wire name, and the frames queued for it so far: metadata first, then chunks. */
  datatype Story = Story(file: seq<byte>, name: seq<byte>, frames: seq<Sent>)

  function Wire(g: Gcm, s: Sent): seq<byte> {
    Frame(g, s.nonce, s.stamp, s.data)
  }

  function Wires(g: Gcm, ss: seq<Sent>): (r: seq<seq<byte>>)
    ensures |r| == |ss|
    ensures forall i :: 0 <= i < |ss| ==> r[i] == Wire(g, ss[i])
  {
    seq(|ss|, i requires 0 <= i < |ss| => Wire(g, ss[i]))
  }

  function Datas(ss: seq<Sent>): (r: seq<seq<byte>>)
    ensures |r| == |ss|
    ensures forall i :: 0 <= i < |ss| ==> r[i] == ss[i].data
  {
    seq(|ss|, i requires 0 <= i < |ss| => ss[i].data)
  }

  /** A name the receiver accepts, as a C string that fits a frame. */
  ghost predicate NameOk(name: seq<byte>) {
    GoodName(name) && 0 !in name && 10 + |name| <= CHUNK
  }

  function MetaOf(st: Story): seq<byte>
    requires |st.file| < 0x1_0000_0000_0000_0000
  {
    PutU64(|st.file|) + PutU16(|st.name| % 0x1_0000) + st.name
  }

  /** The chunks among the first `k` frames, concatenated. */
  function Sofar(st: Story, k: nat): seq<byte>
    requires k <= |st.frames|
  {
    if k == 0 then [] else Flat(Datas(st.frames[1..k]))
  }

  ghost predicate StoryOk(st: Story) {
    && NameOk(st.name) && |st.file| < 0x1_0000_0000_0000_0000
    && (forall i :: 0 <= i < |st.frames| ==> |st.frames[i].nonce| == NONCE_LEN && |st.frames[i].data| <= CHUNK)
    && (forall i :: 1 <= i < |st.frames| ==> st.frames[i].data != [])
    && (|st.frames| > 0 ==> st.frames[0].data == MetaOf(st))
    && Sofar(st, |st.frames|) <= st.file
  }

  /** The receiver after exactly `k` frames: the file so far, done when a chunk completed it. */
  function Received(st: Story, k: nat): SfRx
    requires k <= |st.frames|
  {
    if k == 0 then FRESH_RX
    else SfRx(if k >= 2 && |Sofar(st, k)| == |st.file| then RxDone else RxData,
              true, [], |st.file|, st.name, Sofar(st, k))
  }

  lemma SofarOne(st: Story)
    requires 1 <= |st.frames|
    ensures Sofar(st, 1) == []
  {
    assert st.frames[1..1] == [];
  }

  lemma SofarStep(st: Story, k: nat)
    requires 1 <= k < |st.frames|
    ensures Sofar(st, k + 1) == Sofar(st, k) + st.frames[k].data
  {
    assert Datas(st.frames[1..k + 1]) == Datas(st.frames[1..k]) + [st.frames[k].data];
    FlatSnoc(Datas(st.frames[1..k]), st.frames[k].data);
  }

  lemma {:induction false} SofarPrefix(st: Story, k: nat)
    requires StoryOk(st) && k <= |st.frames|
    ensures Sofar(st, k) <= Sofar(st, |st.frames|) && Sofar(st, k) <= st.file
    ensures 1 <= k < |st.frames| ==> |Sofar(st, k)| < |st.file|
    decreases |st.frames| - k
  {
    if k == |st.frames| {
    } else if k == 0 {
      SofarPrefix(st, 1);
    } else {
      SofarStep(st, k);
      SofarPrefix(st, k + 1);
    }
  }

  lemma {:induction false} CStrWhole(s: seq<byte>)
    requires 0 !in s
    ensures CStr(s) == s
  {
    if s != [] {
      CStrWhole(s[1..]);
      assert s == [s[0]] + s[1..];
    }
  }

  /** The metadata frame opens the file under its name and size. */
  lemma MetaAccepted(st: Story, rx: SfRx)
    requires StoryOk(st) && rx == FRESH_RX.(buf := rx.buf)
    ensures ReadMeta(rx, MetaOf(st), true)
            == Step(rx.(state := RxData, total := |st.file|, name := st.name, written := []), true)
  {
    hide PutU64, PutU16, GetU64, GetU16, GoodName, CStr;
    var m := MetaOf(st);
    assert |m| == 10 + |st.name|;
    assert m[0..8] == PutU64(|st.file|);
    assert m[8..10] == PutU16(|st.name|);
    GetPutU64(m, 0, |st.file|);
    GetPutU16(m, 8, |st.name|);
    assert m[10..] == st.name;
    CStrWhole(st.name);
  }

  /** The receiver takes frame `k` and is where it should be after `k + 1` frames. */
  lemma FrameTaken(g: Gcm, st: Story, k: nat, buf: seq<byte>)
    requires GcmOk(g) && StoryOk(st) && k < |st.frames|
    ensures ProcessFrame(g, Received(st, k).(buf := buf), Wire(g, st.frames[k]), true)
            == Step(Received(st, k + 1).(buf := buf), true)
  {
    var s := st.frames[k];
    var rx := Received(st, k).(buf := buf);
    FrameRoundTrip(g, s.nonce, Fields(MODE_COMMON, 0, 0, s.stamp), s.data, CHUNK);
    assert Parse(g, Wire(g, s), CHUNK) == Some(Parsed(Fields(MODE_COMMON, 0, 0, s.stamp), s.data));
    hide Parse, Wire, ReadMeta, GoodName, CStr, MetaOf;
    if k == 0 {
      MetaAccepted(st, rx);
      SofarOne(st);
    } else {
      SofarPrefix(st, k);
      SofarPrefix(st, k + 1);
      SofarStep(st, k);
    }
  }

  /** A strict prefix of a frame is not complete. */
  lemma PartNotReady(g: Gcm, s: Sent, part: seq<byte>)
    requires GcmOk(g) && |s.nonce| == NONCE_LEN && |s.data| <= CHUNK
    requires part < Wire(g, s)
    ensures !FrameReady(part)
  {
    var w := Wire(g, s);
    BuildPrefix(g, s.nonce, Fields(MODE_COMMON, 0, 0, s.stamp), s.data);
    if 4 <= |part| {
      HeadStable(part, w[|part|..]);
      assert part + w[|part|..] == w;
    }
  }

  lemma WholeIsReady(g: Gcm, s: Sent, rest: seq<byte>)
    requires GcmOk(g) && |s.nonce| == NONCE_LEN && |s.data| <= CHUNK
    ensures var buf := Wire(g, s) + rest; FrameReady(buf) && 4 + GetU32(buf, 0) == |Wire(g, s)|
  {
    BuildPrefix(g, s.nonce, Fields(MODE_COMMON, 0, 0, s.stamp), s.data);
    HeadStable(Wire(g, s), rest);
  }

  /** Where a stream stands: `k` whole frames and a part of the next. */
  ghost predicate At(g: Gcm, st: Story, stream: seq<byte>, k: nat, part: seq<byte>) {
    && k <= |st.frames|
    && stream == Flat(Wires(g, st.frames[..k])) + part
    && (if k < |st.frames| then part < Wire(g, st.frames[k]) else part == [])
  }

  /** What the receiver looks like after any prefix of the queued stream. */
  ghost predicate Follows(g: Gcm, st: Story, rx: SfRx, stream: seq<byte>) {
    exists k: nat, part: seq<byte> :: At(g, st, stream, k, part) && rx == Received(st, k).(buf := part)
  }

  lemma WiresStep(g: Gcm, ss: seq<Sent>, k: nat)
    requires k < |ss|
    ensures Flat(Wires(g, ss[..k + 1])) == Flat(Wires(g, ss[..k])) + Wire(g, ss[k])
    ensures Flat(Wires(g, ss[k..])) == Wire(g, ss[k]) + Flat(Wires(g, ss[k + 1..]))
  {
    hide Wire;
    assert Wires(g, ss[..k + 1]) == Wires(g, ss[..k]) + [Wire(g, ss[k])];
    FlatSnoc(Wires(g, ss[..k]), Wire(g, ss[k]));
    assert Wires(g, ss[k..]) == [Wire(g, ss[k])] + Wires(g, ss[k + 1..]);
    FlatCons(Wire(g, ss[k]), Wires(g, ss[k + 1..]));
  }

  lemma Idle(g: Gcm, rx: SfRx, io: bool)
    requires GcmOk(g) && !FrameReady(rx.buf)
    ensures Drain(g, rx, io) == rx
  {
  }

  /** Draining what follows frame `k`. */
  lemma {:induction false} Follow(g: Gcm, st: Story, k: nat, buf: seq<byte>) returns (n: nat, part: seq<byte>)
    requires GcmOk(g) && StoryOk(st) && k <= |st.frames| && buf <= Flat(Wires(g, st.frames[k..]))
    ensures At(g, st, Flat(Wires(g, st.frames[..k])) + buf, n, part)
    ensures Drain(g, Received(st, k).(buf := buf), true) == Received(st, n).(buf := part)
    decreases |st.frames| - k
  {
    hide Wire, Drain, FrameReady, Received, Flat, NameOk, MetaOf, Sofar;
    if k == |st.frames| {
      n, part := k, buf;
      NothingLeft(g, st.frames, k);
      Idle(g, Received(st, k).(buf := buf), true);
    } else {
      var w := Wire(g, st.frames[k]);
      WiresStep(g, st.frames, k);
      if |buf| < |w| {
        n, part := k, buf;
        PartNotReady(g, st.frames[k], buf);
        Idle(g, Received(st, k).(buf := buf), true);
      } else {
        var rest := buf[|w|..];
        assert buf == w + rest;
        FrameStep(g, st, k, rest);
        n, part := Follow(g, st, k + 1, rest);
        assert Flat(Wires(g, st.frames[..k])) + buf == Flat(Wires(g, st.frames[..k + 1])) + rest;
      }
    }
  }

  lemma NothingLeft(g: Gcm, ss: seq<Sent>, k: nat)
    requires k == |ss|
    ensures Flat(Wires(g, ss[k..])) == [] && !FrameReady([])
  {
  }

  lemma FrameStep(g: Gcm, st: Story, k: nat, rest: seq<byte>)
    requires GcmOk(g) && StoryOk(st) && k < |st.frames|
    ensures Drain(g, Received(st, k).(buf := Wire(g, st.frames[k]) + rest), true)
            == Drain(g, Received(st, k + 1).(buf := rest), true)
  {
    var w := Wire(g, st.frames[k]);
    SofarPrefix(st, k);
    WholeIsReady(g, st.frames[k], rest);
    FrameTaken(g, st, k, w + rest);
    assert (w + rest)[..|w|] == w && (w + rest)[|w|..] == rest;
    hide ProcessFrame, FrameReady, Wire, GetU32;
  }

  /** One more delivery: the receiver still follows. */
  lemma {:induction false} FollowMore(g: Gcm, st: Story, rx: SfRx, stream: seq<byte>, more: seq<byte>)
    requires GcmOk(g) && StoryOk(st) && Follows(g, st, rx, stream)
    requires stream + more <= Flat(Wires(g, st.frames))
    ensures Follows(g, st, OnData(g, rx, more, true), stream + more)
  {
    hide Drain, Received, Flat, StoryOk, Wire;
    var k: nat, part :| At(g, st, stream, k, part) && rx == Received(st, k).(buf := part);
    var whole := Wires(g, st.frames);
    assert whole[..k] == Wires(g, st.frames[..k]) && whole[k..] == Wires(g, st.frames[k..]);
    FlatSplit(whole, k);
    var head := Flat(whole[..k]);
    assert stream + more == head + (part + more);
    assert part + more <= Flat(whole[k..]) by {
      assert Flat(whole)[|head|..] == Flat(whole[k..]);
      assert (stream + more)[|head|..] == part + more;
    }
    var n, part' := Follow(g, st, k, part + more);
    assert At(g, st, stream + more, n, part');
  }

  /** Queueing another frame does not disturb the receiver. */
  lemma FollowStable(g: Gcm, st: Story, rx: SfRx, stream: seq<byte>, s: Sent)
    requires GcmOk(g) && Follows(g, st, rx, stream) && |s.nonce| == NONCE_LEN && |s.data| <= CHUNK
    ensures Follows(g, st.(frames := st.frames + [s]), rx, stream)
  {
    var k: nat, part :| At(g, st, stream, k, part) && rx == Received(st, k).(buf := part);
    hide At, Flat;
    var st' := st.(frames := st.frames + [s]);
    AtStable(g, st, stream, k, part, s);
    assert k >= 1 ==> st'.frames[1..k] == st.frames[1..k];
  }

  lemma AtStable(g: Gcm, st: Story, stream: seq<byte>, k: nat, part: seq<byte>, s: Sent)
    requires GcmOk(g) && At(g, st, stream, k, part) && |s.nonce| == NONCE_LEN && |s.data| <= CHUNK
    ensures k <= |st.frames| && At(g, st.(frames := st.frames + [s]), stream, k, part)
  {
    BuildPrefix(g, s.nonce, Fields(MODE_COMMON, 0, 0, s.stamp), s.data);
    assert [] < Wire(g, s);
    hide Flat, Wire;
    assert (st.frames + [s])[..k] == st.frames[..k];
  }

  /** A stream that holds all queued frames leaves nothing over. */
  lemma AtEnd(g: Gcm, st: Story, k: nat, part: seq<byte>)
    requires At(g, st, Flat(Wires(g, st.frames)), k, part)
    ensures k == |st.frames| && part == []
  {
    hide Flat, Wire;
    if k < |st.frames| {
      WiresStep(g, st.frames, k);
      var whole := Wires(g, st.frames);
      assert whole[..k] == Wires(g, st.frames[..k]) && whole[k..] == Wires(g, st.frames[k..]);
      FlatSplit(whole, k);
    }
  }

  /** After all queued frames, the receiver is exactly the one expected. */
  lemma FollowedAll(g: Gcm, st: Story, rx: SfRx)
    requires Follows(g, st, rx, Flat(Wires(g, st.frames)))
    ensures rx == Received(st, |st.frames|)
  {
    hide Flat, Wire, Received;
    var k: nat, part :| At(g, st, Flat(Wires(g, st.frames)), k, part) && rx == Received(st, k).(buf := part);
    AtEnd(g, st, k, part);
    EmptyBuf(st, k);
  }

  lemma EmptyBuf(st: Story, k: nat)
    requires k <= |st.frames|
    ensures Received(st, k).buf == []
  {
  }

  /** Whatever has arrived, the file on disk is a prefix of the file sent. */
  lemma {:induction false} WrittenIsPrefix(g: Gcm, st: Story, rx: SfRx, stream: seq<byte>)
    requires StoryOk(st) && Follows(g, st, rx, stream)
    ensures rx.written <= st.file
  {
    var k: nat, part :| At(g, st, stream, k, part) && rx == Received(st, k).(buf := part);
    hide At, StoryOk;
    SofarPrefix(st, k);
  }
}
