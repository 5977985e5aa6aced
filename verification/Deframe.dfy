/**
 * Cutting frames out of a byte stream that arrives in arbitrary reads. A `head` function looks at the
 * front of the buffer and says whether a whole frame is there.
 */
module Deframe {
  import opened Bytes

  datatype Head = NeedMore | Corrupt | Whole(total: nat)

  /** More bytes do not change the verdict on a frame that is complete or corrupt. */
  ghost predicate Stable(head: seq<byte> -> Head) {
    && (forall a, b :: head(a).Whole? ==> head(a + b) == head(a))
    && (forall a, b :: head(a).Corrupt? ==> head(a + b).Corrupt?)
    && (forall a :: head(a).Whole? ==> 0 < head(a).total <= |a| && head(a[..head(a).total]) == head(a))
  }

  /** The frames handed on, the incomplete tail retained, and whether the stream was found corrupt. */
  datatype Cut = Cut(frames: seq<seq<byte>>, rest: seq<byte>, broken: bool)

  /** The loop over one buffer. */
  function Frames(head: seq<byte> -> Head, buf: seq<byte>): Cut
    requires Stable(head)
    decreases |buf|
  {
    match head(buf)
    case NeedMore => Cut([], buf, false)
    case Corrupt => Cut([], [], true)
    case Whole(n) =>
      var more := Frames(head, buf[n..]);
      more.(frames := [buf[..n]] + more.frames)
  }

  /** One turn of the loop. */
  lemma FramesStep(head: seq<byte> -> Head, buf: seq<byte>)
    requires Stable(head)
    ensures match head(buf)
            case NeedMore => Frames(head, buf) == Cut([], buf, false)
            case Corrupt => Frames(head, buf) == Cut([], [], true)
            case Whole(n) => 0 < n <= |buf| && var more := Frames(head, buf[n..]);
                             Frames(head, buf) == Cut([buf[..n]] + more.frames, more.rest, more.broken)
  {
  }

  /** One read appended to what was retained. */
  function Feed(head: seq<byte> -> Head, c: Cut, read: seq<byte>): Cut
    requires Stable(head)
  {
    if c.broken then c
    else
      var d := Frames(head, c.rest + read);
      d.(frames := c.frames + d.frames)
  }

  function FeedAll(head: seq<byte> -> Head, pieces: seq<seq<byte>>): Cut
    requires Stable(head)
  {
    if pieces == [] then Cut([], [], false)
    else Feed(head, FeedAll(head, pieces[..|pieces| - 1]), pieces[|pieces| - 1])
  }

  lemma StableAt(head: seq<byte> -> Head, a: seq<byte>, b: seq<byte>)
    requires Stable(head)
    ensures head(a).Whole? ==> head(a + b) == head(a) && 0 < head(a).total <= |a| && head(a[..head(a).total]) == head(a)
    ensures head(a).Corrupt? ==> head(a + b).Corrupt?
  {
  }

  /** Cutting first and appending later is the same as cutting once. */
  lemma {:induction false} FramesAppend(head: seq<byte> -> Head, a: seq<byte>, b: seq<byte>)
    requires Stable(head)
    ensures Frames(head, a + b) == Feed(head, Frames(head, a), b)
    decreases |a|
  {
    hide Stable;
    StableAt(head, a, b);
    match head(a)
    case NeedMore =>
    case Corrupt =>
    case Whole(n) =>
      assert (a + b)[..n] == a[..n] && (a + b)[n..] == a[n..] + b;
      FramesAppend(head, a[n..], b);
      var c := Frames(head, a[n..]);
      if !c.broken {
        var d := Frames(head, c.rest + b);
        assert [a[..n]] + (c.frames + d.frames) == ([a[..n]] + c.frames) + d.frames;
      }
  }

  /** However a stream is cut into reads, the same frames come out and the same tail is retained. */
  lemma {:induction false} ChunkingIndependence(head: seq<byte> -> Head, pieces: seq<seq<byte>>)
    requires Stable(head) && head([]).NeedMore?
    ensures FeedAll(head, pieces) == Frames(head, Flat(pieces))
  {
    if pieces != [] {
      var k := |pieces| - 1;
      ChunkingIndependence(head, pieces[..k]);
      FramesAppend(head, Flat(pieces[..k]), pieces[k]);
    }
  }

  /** A concatenation of whole frames followed by an incomplete one comes apart into exactly those. */
  lemma {:induction false} WholeFrames(head: seq<byte> -> Head, frames: seq<seq<byte>>, tail: seq<byte>)
    requires Stable(head) && head(tail).NeedMore?
    requires forall i | 0 <= i < |frames| :: head(frames[i]) == Whole(|frames[i]|)
    ensures Frames(head, Flat(frames) + tail) == Cut(frames, tail, false)
    decreases |frames|
  {
    hide Stable;
    if frames == [] {
      assert Flat(frames) + tail == tail;
    } else {
      var f := frames[0];
      assert frames == [f] + frames[1..];
      FlatCons(f, frames[1..]);
      var rest := Flat(frames[1..]) + tail;
      assert Flat(frames) + tail == f + rest;
      StableAt(head, f, rest);
      assert (f + rest)[..|f|] == f && (f + rest)[|f|..] == rest;
      WholeFrames(head, frames[1..], tail);
    }
  }

  /** Both together: any reads that concatenate to whole frames and an incomplete tail. */
  lemma {:induction false} FramesSurviveChunking(head: seq<byte> -> Head, frames: seq<seq<byte>>, tail: seq<byte>,
                                                 pieces: seq<seq<byte>>)
    requires Stable(head) && head([]).NeedMore? && head(tail).NeedMore?
    requires forall i | 0 <= i < |frames| :: head(frames[i]) == Whole(|frames[i]|)
    requires Flat(pieces) == Flat(frames) + tail
    ensures FeedAll(head, pieces) == Cut(frames, tail, false)
  {
    ChunkingIndependence(head, pieces);
    WholeFrames(head, frames, tail);
  }
}
