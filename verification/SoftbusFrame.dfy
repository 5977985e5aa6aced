/** The dsoftbus TLV frame and its stream buffer (src/proto/softbus_frame.c). */
module SoftbusFrame {
  import opened Bytes
  import opened Deframe

  const MAGIC_0: byte := 0x53
  const MAGIC_1: byte := 0x42
  const VERSION: byte := 1
  const HEADER_SIZE: nat := 8
  const MIN_SIZE: nat := 24
  const MAX_PAYLOAD: nat := 65507

  datatype Frame = Frame(sessionId: seq<byte>, num: u32, kind: byte, flags: byte, pktFlags: byte, extLen: u16,
                         payload: seq<byte>)

  predicate FrameOk(f: Frame) {
    |f.sessionId| == 8
  }

  /** [] stands for a refusal. */
  function Pack(f: Frame): seq<byte>
    requires FrameOk(f)
  {
    if |f.payload| > MAX_PAYLOAD then []
    else
      [MAGIC_0, MAGIC_1, VERSION, f.flags] + PutU32(MIN_SIZE + |f.payload| + f.extLen) + f.sessionId + PutU32(f.num)
      + [f.kind, f.pktFlags] + PutU16(f.extLen) + f.payload + Zeros(f.extLen)
  }

  /** What is at the front of the buffer. */
  function HeadOf(buf: seq<byte>): Head {
    if |buf| < HEADER_SIZE then NeedMore
    else if buf[0] != MAGIC_0 || buf[1] != MAGIC_1 || buf[2] != VERSION then Corrupt
    else
      var total := GetU32(buf, 4);
      if total < MIN_SIZE || total > MAX_PAYLOAD + MIN_SIZE then Corrupt
      else if |buf| < total then NeedMore
      else if GetU16(buf, 22) > (total - MIN_SIZE) % 0x1_0000 then Corrupt
      else Whole(total)
  }

  /** The fields of a whole frame. */
  function FieldsOf(buf: seq<byte>): Frame
    requires HeadOf(buf).Whole?
  {
    var ext := GetU16(buf, 22);
    Frame(buf[8..16], GetU32(buf, 16), buf[20], buf[3], buf[21], ext, buf[MIN_SIZE..HeadOf(buf).total - ext])
  }

  lemma HeadStable()
    ensures Stable(HeadOf) && HeadOf([]).NeedMore?
  {
    forall a, b
      ensures HeadOf(a).Whole? ==> HeadOf(a + b) == HeadOf(a)
      ensures HeadOf(a).Corrupt? ==> HeadOf(a + b).Corrupt?
    {
      HeadAppend(a, b);
    }
    forall a: seq<byte> | HeadOf(a).Whole?
      ensures 0 < HeadOf(a).total <= |a| && HeadOf(a[..HeadOf(a).total]) == HeadOf(a)
    {
      HeadPrefix(a);
    }
    assert HeadOf([]).NeedMore?;
    hide HeadOf;
  }

  lemma HeadAppend(a: seq<byte>, b: seq<byte>)
    ensures HeadOf(a).Whole? ==> HeadOf(a + b) == HeadOf(a)
    ensures HeadOf(a).Corrupt? ==> HeadOf(a + b).Corrupt?
  {
  }

  lemma HeadPrefix(a: seq<byte>)
    requires HeadOf(a).Whole?
    ensures 0 < HeadOf(a).total <= |a| && HeadOf(a[..HeadOf(a).total]) == HeadOf(a)
  {
  }

  lemma PackLayout(f: Frame)
    requires FrameOk(f) && |f.payload| <= MAX_PAYLOAD
    ensures var p := Pack(f);
            && |p| == MIN_SIZE + |f.payload| + f.extLen
            && p[0] == MAGIC_0 && p[1] == MAGIC_1 && p[2] == VERSION && p[3] == f.flags
            && GetU32(p, 4) == MIN_SIZE + |f.payload| + f.extLen
            && p[8..16] == f.sessionId && GetU32(p, 16) == f.num && p[20] == f.kind && p[21] == f.pktFlags
            && GetU16(p, 22) == f.extLen && p[MIN_SIZE..MIN_SIZE + |f.payload|] == f.payload
  {
    hide PutU32, GetU32, PutU16, GetU16;
    var p := Pack(f);
    assert p[4..8] == PutU32(MIN_SIZE + |f.payload| + f.extLen);
    assert p[16..20] == PutU32(f.num);
    assert p[22..24] == PutU16(f.extLen);
    GetPutU32(p, 4, MIN_SIZE + |f.payload| + f.extLen);
    GetPutU32(p, 16, f.num);
    GetPutU16(p, 22, f.extLen);
  }

  /**
   * The buffer gives a packed frame back exactly when payload and extension together fit the limit; `Pack`
   * tests the payload alone, so it builds longer frames that the peer takes for a corrupt stream.
   */
  lemma {:induction false} RoundTripIff(f: Frame)
    requires FrameOk(f) && |f.payload| <= MAX_PAYLOAD
    ensures HeadOf(Pack(f)) == if |f.payload| + f.extLen <= MAX_PAYLOAD then Whole(|Pack(f)|) else Corrupt
    ensures |f.payload| + f.extLen <= MAX_PAYLOAD ==> FieldsOf(Pack(f)) == f
  {
    PackLayout(f);
    hide Pack, GetU32, GetU16;
  }

  // ---------------------------------------------------------------- what a buffer holds

  /** A frame as it may arrive: the extension area can hold anything. */
  function Layout(f: Frame, ext: seq<byte>): seq<byte>
    requires Fine(f, ext)
  {
    [MAGIC_0, MAGIC_1, VERSION, f.flags] + PutU32(MIN_SIZE + |f.payload| + |ext|) + f.sessionId + PutU32(f.num)
    + [f.kind, f.pktFlags] + PutU16(f.extLen) + f.payload + ext
  }

  predicate Fine(f: Frame, ext: seq<byte>) {
    FrameOk(f) && |ext| == f.extLen && |f.payload| + |ext| <= MAX_PAYLOAD
  }

  lemma LayoutParts(f: Frame, ext: seq<byte>, more: seq<byte>)
    requires Fine(f, ext)
    ensures var s := Layout(f, ext) + more; var n := MIN_SIZE + |f.payload| + |ext|;
            && |Layout(f, ext)| == n && HeadOf(s) == Whole(n) && s[..n] == Layout(f, ext)
            && FieldsOf(s) == f
  {
    hide PutU32, GetU32, PutU16, GetU16;
    var s := Layout(f, ext) + more;
    var n := MIN_SIZE + |f.payload| + |ext|;
    assert s[4..8] == PutU32(n) && s[16..20] == PutU32(f.num) && s[22..24] == PutU16(f.extLen);
    GetPutU32(s, 4, n);
    GetPutU32(s, 16, f.num);
    GetPutU16(s, 22, f.extLen);
    assert s[8..16] == f.sessionId && s[MIN_SIZE..n - f.extLen] == f.payload;
  }

  lemma WholeMeans(buf: seq<byte>)
    requires HeadOf(buf).Whole?
    ensures var n := HeadOf(buf).total; var f := FieldsOf(buf);
            && MIN_SIZE + f.extLen <= n <= |buf| && n <= MIN_SIZE + MAX_PAYLOAD
            && buf[..4] == [MAGIC_0, MAGIC_1, VERSION, f.flags] && buf[20..22] == [f.kind, f.pktFlags]
            && GetU32(buf, 4) == n && GetU32(buf, 16) == f.num && GetU16(buf, 22) == f.extLen
            && f.sessionId == buf[8..16] && f.payload == buf[MIN_SIZE..n - f.extLen]
  {
    hide GetU32, GetU16;
  }

  /** Reading the fields of a whole frame and writing them again gives the same bytes. */
  lemma WholeParts(buf: seq<byte>)
    requires HeadOf(buf).Whole?
    ensures var n := HeadOf(buf).total; var f := FieldsOf(buf);
            && n <= |buf| && f.extLen <= n - MIN_SIZE
            && Fine(f, buf[n - f.extLen..n]) && buf[..n] == Layout(f, buf[n - f.extLen..n])
  {
    hide PutU32, GetU32, PutU16, GetU16, HeadOf, FieldsOf;
    WholeMeans(buf);
    var n := HeadOf(buf).total;
    var f := FieldsOf(buf);
    ReadU32(buf, 4, n);
    ReadU32(buf, 16, f.num);
    ReadU16(buf, 22, f.extLen);
    var ext := buf[n - f.extLen..n];
    assert buf[..n] == buf[..4] + buf[4..8] + buf[8..16] + buf[16..20] + buf[20..22] + buf[22..24]
                       + buf[MIN_SIZE..n - f.extLen] + ext;
  }

  /** A buffer begins with a whole frame exactly when it begins with the bytes of one. */
  lemma {:induction false} WholeIff(buf: seq<byte>, f: Frame)
    ensures HeadOf(buf).Whole? && FieldsOf(buf) == f <==> exists ext :: Fine(f, ext) && Layout(f, ext) <= buf
  {
    if HeadOf(buf).Whole? && FieldsOf(buf) == f {
      WholeParts(buf);
      hide HeadOf, FieldsOf, Layout;
      var n := HeadOf(buf).total;
      assert Layout(f, buf[n - f.extLen..n]) <= buf;
    }
    forall ext | Fine(f, ext) && Layout(f, ext) <= buf
      ensures HeadOf(buf).Whole? && FieldsOf(buf) == f
    {
      var n := |Layout(f, ext)|;
      assert buf == Layout(f, ext) + buf[n..];
      LayoutParts(f, ext, buf[n..]);
    }
  }

  /** The frame may still be on its way: it begins the buffer, or is longer and has its first eight bytes. */
  predicate Possible(buf: seq<byte>, f: Frame, ext: seq<byte>)
    requires Fine(f, ext) && |buf| >= HEADER_SIZE
  {
    var s := Layout(f, ext);
    if |s| <= |buf| then s <= buf else buf[..HEADER_SIZE] == s[..HEADER_SIZE]
  }

  /**
   * A buffer that holds a header is given up exactly when no frame is possible: none that would be complete
   * begins it, and no longer one has its header.
   */
  lemma {:induction false} CorruptIff(buf: seq<byte>)
    requires |buf| >= HEADER_SIZE
    ensures HeadOf(buf).Corrupt? <==> forall f, ext | Fine(f, ext) :: !Possible(buf, f, ext)
  {
    forall f, ext | Fine(f, ext) && Possible(buf, f, ext)
      ensures !HeadOf(buf).Corrupt?
    {
      PossibleIsFine(buf, f, ext);
    }
    if HeadOf(buf).Whole? {
      WholeParts(buf);
      var f := FieldsOf(buf);
      var n := HeadOf(buf).total;
      assert Possible(buf, f, buf[n - f.extLen..n]);
    } else if HeadOf(buf).NeedMore? {
      var f := Longer(buf);
      assert Fine(f, []);
      assert Possible(buf, f, []);
    }
  }

  lemma PossibleIsFine(buf: seq<byte>, f: Frame, ext: seq<byte>)
    requires |buf| >= HEADER_SIZE && Fine(f, ext) && Possible(buf, f, ext)
    ensures !HeadOf(buf).Corrupt?
  {
    var s := Layout(f, ext);
    LayoutParts(f, ext, []);
    assert s + [] == s;
    if |s| <= |buf| {
      assert buf == s + buf[|s|..];
      LayoutParts(f, ext, buf[|s|..]);
    } else {
      assert buf[..8] == s[..8];
      assert forall i | 0 <= i < 8 :: buf[i] == buf[..8][i] && s[i] == s[..8][i];
      assert buf[4..8] == s[..8][4..8] == s[4..8];
      PutGetU32(buf, 4);
      PutGetU32(s, 4);
      SameU32(buf, s);
    }
  }

  lemma SameU32(a: seq<byte>, b: seq<byte>)
    requires |a| >= 8 && |b| >= 8 && forall i | 4 <= i < 8 :: a[i] == b[i]
    ensures GetU32(a, 4) == GetU32(b, 4)
  {
  }

  /** A frame with the header of a buffer that waits for more. */
  lemma Longer(buf: seq<byte>) returns (f: Frame)
    requires |buf| >= HEADER_SIZE && HeadOf(buf).NeedMore?
    ensures Fine(f, []) && |Layout(f, [])| > |buf| && Layout(f, [])[..HEADER_SIZE] == buf[..HEADER_SIZE]
  {
    var n := GetU32(buf, 4);
    f := Frame(Zeros(8), 0, 0, buf[3], 0, 0, Zeros(n - MIN_SIZE));
    LayoutParts(f, [], []);
    PutGetU32(buf, 4);
    hide PutU32, GetU32;
    assert Layout(f, []) + [] == Layout(f, []);
    assert Layout(f, [])[..8] == [MAGIC_0, MAGIC_1, VERSION, buf[3]] + PutU32(n);
    assert buf[..8] == buf[..4] + buf[4..8];
  }

  /** A buffer as long as the longest frame never waits. */
  lemma NeverStuck(buf: seq<byte>)
    requires |buf| >= MIN_SIZE + MAX_PAYLOAD
    ensures !HeadOf(buf).NeedMore?
  {
  }

  function Packed(fs: seq<Frame>): seq<seq<byte>>
    requires forall i | 0 <= i < |fs| :: FrameOk(fs[i])
  {
    seq(|fs|, i requires 0 <= i < |fs| => Pack(fs[i]))
  }

  /** Packed frames survive any cutting of the stream into reads. */
  lemma {:induction false} StreamRoundTrip(fs: seq<Frame>, tail: seq<byte>, pieces: seq<seq<byte>>)
    requires forall i | 0 <= i < |fs| :: FrameOk(fs[i]) && |fs[i].payload| + fs[i].extLen <= MAX_PAYLOAD
    requires HeadOf(tail).NeedMore? && Flat(pieces) == Flat(Packed(fs)) + tail
    ensures Stable(HeadOf)
    ensures var c := FeedAll(HeadOf, pieces);
            && c == Cut(Packed(fs), tail, false)
            && forall i | 0 <= i < |fs| :: HeadOf(c.frames[i]).Whole? && FieldsOf(c.frames[i]) == fs[i]
  {
    HeadStable();
    forall i | 0 <= i < |fs|
      ensures HeadOf(Packed(fs)[i]) == Whole(|Packed(fs)[i]|) && FieldsOf(Packed(fs)[i]) == fs[i]
    {
      RoundTripIff(fs[i]);
    }
    hide HeadOf, FieldsOf, Pack, FeedAll, Stable;
    FramesSurviveChunking(HeadOf, Packed(fs), tail, pieces);
  }

  /** The buffer object. */
  class FrameBuf {
    var data: seq<byte>

    constructor ()
      ensures data == []
    {
      data := [];
    }

    method Append(bytes: seq<byte>)
      modifies this
      ensures data == old(data) + bytes
    {
      if |bytes| > 0 {
        data := data + bytes;
      }
    }

    /** The first frame, if it is complete; a corrupt buffer is emptied. */
    method PopFrame() returns (f: Option<Frame>, corrupt: bool)
      modifies this
      ensures match HeadOf(old(data))
              case Whole(n) => f == Some(FieldsOf(old(data)[..n])) && data == old(data)[n..] && !corrupt
              case Corrupt => f.None? && data == [] && corrupt
              case NeedMore => f.None? && data == old(data) && !corrupt
    {
      f, corrupt := None, false;
      match HeadOf(data)
      case Whole(n) =>
        FieldsPrefix(data);
        f := Some(FieldsOf(data));
        data := data[n..];
      case Corrupt =>
        data := [];
        corrupt := true;
      case NeedMore =>
    }

    /** The session's loop: hand on every complete frame of what has been read. */
    method PopAll() returns (frames: seq<Frame>, corrupt: bool)
      modifies this
      ensures Stable(HeadOf)
      ensures var c := Frames(HeadOf, old(data)); data == c.rest && corrupt == c.broken && Reads(c.frames, frames)
    {
      HeadStable();
      hide HeadOf, FieldsOf, Stable, Frames;
      frames := [];
      corrupt := false;
      ghost var all := Frames(HeadOf, data);
      ghost var done: seq<seq<byte>> := [];
      while true
        invariant all == Cut(done + Frames(HeadOf, data).frames, Frames(HeadOf, data).rest, Frames(HeadOf, data).broken)
        invariant Reads(done, frames)
        decreases |data|
      {
        ghost var before := data;
        FramesStep(HeadOf, before);
        var f, bad := PopFrame();
        if f.None? {
          corrupt := bad;
          assert done + [] == done;
          break;
        }
        frames := frames + [f.value];
        ghost var cut := before[..HeadOf(before).total];
        assert done + ([cut] + Frames(HeadOf, data).frames) == (done + [cut]) + Frames(HeadOf, data).frames;
        CutIsWhole(before);
        done := done + [cut];
      }
    }
  }

  /** The fields read from a list of whole frames. */
  ghost predicate Reads(cuts: seq<seq<byte>>, frames: seq<Frame>) {
    |cuts| == |frames| && forall i | 0 <= i < |cuts| :: HeadOf(cuts[i]).Whole? && FieldsOf(cuts[i]) == frames[i]
  }

  lemma CutIsWhole(buf: seq<byte>)
    requires HeadOf(buf).Whole?
    ensures HeadOf(buf).total <= |buf| && HeadOf(buf[..HeadOf(buf).total]).Whole?
  {
    HeadPrefix(buf);
  }

  lemma FieldsPrefix(buf: seq<byte>)
    requires HeadOf(buf).Whole?
    ensures var cut := buf[..HeadOf(buf).total]; HeadOf(cut) == HeadOf(buf) && FieldsOf(cut) == FieldsOf(buf)
  {
  }
}
