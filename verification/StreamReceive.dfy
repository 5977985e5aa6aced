/**
 * What the receiver of src/proto/stream_file.c does with a stream from anybody, not only from an honest
 * sender: which names it opens, which chunks it writes, and when it is done.
 */
module StreamReceive {
  import opened Bytes
  import opened Num32
  import opened Vtp
  import opened StreamFile

  // ---------------------------------------------------------------- names

  /** By its bytes: no NUL, no '/', no two dots in a row, no dot at the beginning. */
  predicate SafeBytes(name: seq<byte>) {
    && (forall i | 0 <= i < |name| :: name[i] != 0 && name[i] != 0x2F)
    && (forall i | 0 <= i < |name| - 1 :: name[i] != 0x2E || name[i + 1] != 0x2E)
    && (name != [] ==> name[0] != 0x2E)
  }

  /** A C string is what precedes the first NUL. */
  lemma {:induction false} CStrIs(raw: seq<byte>)
    ensures var n := |CStr(raw)|;
            n <= |raw| && CStr(raw) == raw[..n] && 0 !in raw[..n] && (n < |raw| ==> raw[n] == 0)
  {
    if raw != [] && raw[0] != 0 {
      CStrIs(raw[1..]);
      var n := |CStr(raw[1..])|;
      assert raw[..n + 1] == [raw[0]] + raw[1..][..n];
    }
  }

  lemma {:induction false} DotDotIs(s: seq<byte>)
    ensures HasDotDot(s) <==> exists i | 0 <= i < |s| - 1 :: s[i] == 0x2E && s[i + 1] == 0x2E
  {
    if |s| >= 2 {
      DotDotIs(s[1..]);
      if HasDotDot(s[1..]) {
        var i :| 0 <= i < |s[1..]| - 1 && s[1..][i] == 0x2E && s[1..][i + 1] == 0x2E;
        assert s[i + 1] == 0x2E && s[i + 1 + 1] == 0x2E;
      }
      if j :| 0 < j < |s| - 1 && s[j] == 0x2E && s[j + 1] == 0x2E {
        assert s[1..][j - 1] == 0x2E && s[1..][j - 1 + 1] == 0x2E;
      }
    }
  }

  lemma {:induction false} GoodNameIff(raw: seq<byte>)
    ensures GoodName(raw) <==> raw != [] && SafeBytes(CStr(raw))
  {
    CStrIs(raw);
    DotDotIs(CStr(raw));
    hide CStr, HasDotDot;
    var s := CStr(raw);
    assert forall i | 0 <= i < |s| :: s[i] in raw[..|s|];
  }

  // ---------------------------------------------------------------- one plaintext

  /** A metadata record for a file of `total` bytes; the name may carry a NUL and more after it. */
  function MetaOf(total: u64, raw: seq<byte>): seq<byte>
    requires |raw| < 0x1_0000
  {
    PutU64(total) + PutU16(|raw|) + raw
  }

  ghost predicate IsMeta(out: seq<byte>, total: u64, raw: seq<byte>) {
    0 < |raw| < 0x1_0000 && out == MetaOf(total, raw) && SafeBytes(CStr(raw))
  }

  /**
   * The first plaintext, whatever it is: it opens a file if and only if it is a metadata record with a safe
   * name, a receive directory is set and the file can be created; otherwise a session that expects a file
   * fails, and one that does not stays as it was.
   */
  lemma {:induction false} OpensIff(rx: SfRx, out: seq<byte>, io: bool)
    requires rx.state == RxWait
    ensures var r := ReadMeta(rx, out, io);
            && (r.cont <==> rx.hasDir && io && exists total: u64, raw :: IsMeta(out, total, raw))
            && (r.cont ==>
                  exists total: u64, raw ::
                    IsMeta(out, total, raw)
                    && r.rx == rx.(state := RxData, total := total, name := CStr(raw), written := []))
            && (!r.cont ==> r.rx == if rx.hasDir then rx.(state := RxFailed) else rx)
  {
    hide CStr, SafeBytes, GoodName;
    if |out| >= 10 {
      GoodNameIff(out[10..]);
    }
    if ReadMeta(rx, out, io).cont {
      MetaParts(out);
      assert IsMeta(out, GetU64(out, 0), out[10..]);
    }
    if total: u64, raw :| IsMeta(out, total, raw) {
      MetaReads(out, total, raw);
      assert ReadMeta(rx, out, io).cont <==> rx.hasDir && io;
    }
  }

  lemma MetaParts(out: seq<byte>)
    requires |out| >= 10 && |out| == 10 + GetU16(out, 8)
    ensures out == MetaOf(GetU64(out, 0), out[10..])
  {
    PutGetU64(out, 0);
    PutGetU16(out, 8);
    hide PutU64, PutU16, GetU64, GetU16;
    assert out == out[0..8] + out[8..10] + out[10..];
  }

  lemma MetaReads(out: seq<byte>, total: u64, raw: seq<byte>)
    requires |raw| < 0x1_0000 && out == MetaOf(total, raw)
    ensures |out| == 10 + |raw| && GetU64(out, 0) == total && GetU16(out, 8) == |raw| && out[10..] == raw
  {
    hide PutU64, PutU16, GetU64, GetU16;
    assert out[0..8] == PutU64(total) && out[8..10] == PutU16(|raw|);
    GetPutU64(out, 0, total);
    GetPutU16(out, 8, |raw|);
  }

  /** A metadata record says one thing only. */
  lemma MetaUnique(out: seq<byte>, total: u64, raw: seq<byte>, total': u64, raw': seq<byte>)
    requires IsMeta(out, total, raw) && IsMeta(out, total', raw')
    ensures total == total' && raw == raw'
  {
    MetaReads(out, total, raw);
    MetaReads(out, total', raw');
  }

  /**
   * Every later plaintext: it is written if and only if it fits the announced size and the disk works (an
   * empty one always does), and the session is done exactly when the size is reached.
   */
  lemma {:induction false} WritesIff(rx: SfRx, out: seq<byte>, io: bool)
    requires rx.state == RxData
    ensures var r := ReadChunk(rx, out, io);
            && (r.cont <==> out == [] || (|rx.written| + |out| <= rx.total && io))
            && (r.cont ==>
                  && r.rx == rx.(written := rx.written + out, state := r.rx.state)
                  && r.rx.state == if |rx.written| + |out| == rx.total then RxDone else RxData)
            && (!r.cont ==> r.rx == rx.(state := RxFailed))
  {
    assert out == [] ==> rx.written + out == rx.written;
  }

  // ---------------------------------------------------------------- any deliveries

  /** One delivery of the stream, and whether the disk works while it is handled. */
  datatype Delivery = Delivery(data: seq<byte>, io: bool)

  function Receive(g: Gcm, rx: SfRx, ds: seq<Delivery>): SfRx
    requires GcmOk(g)
  {
    if ds == [] then rx else OnData(g, Receive(g, rx, ds[..|ds| - 1]), ds[|ds| - 1].data, ds[|ds| - 1].io)
  }

  /** The file that is open has a safe name and does not exceed its announced size; done means it has that size. */
  predicate Sane(rx: SfRx) {
    && (rx.state == RxData || rx.state == RxDone ==> rx.hasDir && SafeBytes(rx.name) && |rx.written| <= rx.total)
    && (rx.state == RxDone ==> |rx.written| == rx.total)
  }

  /** Nothing of an open file is forgotten or changed, and the two ends are final. */
  predicate Onward(a: SfRx, b: SfRx) {
    && a.hasDir == b.hasDir
    && (a.state == RxData ==>
          b.state != RxWait && b.name == a.name && b.total == a.total && a.written <= b.written)
    && (a.state == RxDone || a.state == RxFailed ==> b == a.(buf := b.buf))
  }

  lemma FrameSane(g: Gcm, rx: SfRx, frame: seq<byte>, io: bool)
    requires GcmOk(g) && Sane(rx)
    ensures Sane(ProcessFrame(g, rx, frame, io).rx) && Onward(rx, ProcessFrame(g, rx, frame, io).rx)
  {
    hide Parse, SafeBytes, ReadMeta, ReadChunk;
    var p := Parse(g, frame, CHUNK);
    if p.Some? && rx.state == RxWait {
      OpensIff(rx, p.value.data, io);
      MetaSafe(p.value.data);
    } else if p.Some? && rx.state == RxData {
      WritesIff(rx, p.value.data, io);
    }
  }

  lemma MetaSafe(out: seq<byte>)
    ensures forall total: u64, raw | IsMeta(out, total, raw) :: SafeBytes(CStr(raw))
  {
    hide CStr, SafeBytes;
  }

  lemma OnwardTrans(a: SfRx, b: SfRx, c: SfRx)
    requires Onward(a, b) && Onward(b, c)
    ensures Onward(a, c)
  {
  }

  lemma FailSane(rx: SfRx, buf: seq<byte>)
    requires Sane(rx)
    ensures Sane(FailRx(rx)) && Onward(rx, FailRx(rx)) && Sane(rx.(buf := buf)) && Onward(rx, rx.(buf := buf))
  {
    hide SafeBytes;
  }

  lemma {:induction false} DrainSane(g: Gcm, rx: SfRx, io: bool)
    requires GcmOk(g) && Sane(rx)
    ensures Sane(Drain(g, rx, io)) && Onward(rx, Drain(g, rx, io))
    decreases |rx.buf|
  {
    hide ProcessFrame, GetU32, Add32, Sane, Onward;
    FailSane(rx, rx.buf);
    assert rx.(buf := rx.buf) == rx;
    if !Finished(rx) && FrameReady(rx.buf) {
      var total := 4 + GetU32(rx.buf, 0);
      if total <= |rx.buf| {
        FrameSane(g, rx, rx.buf[..total], io);
        var s := ProcessFrame(g, rx, rx.buf[..total], io);
        var next := s.rx.(buf := rx.buf[total..]);
        FailSane(s.rx, rx.buf[total..]);
        OnwardTrans(rx, s.rx, next);
        if s.cont {
          DrainSane(g, next, io);
          OnwardTrans(rx, next, Drain(g, next, io));
        }
      }
    }
  }

  lemma {:induction false} ReceiveSane(g: Gcm, rx: SfRx, ds: seq<Delivery>)
    requires GcmOk(g) && Sane(rx)
    ensures Sane(Receive(g, rx, ds)) && Onward(rx, Receive(g, rx, ds))
  {
    hide Drain, Sane, Onward;
    if ds == [] {
      FailSane(rx, rx.buf);
      assert rx.(buf := rx.buf) == rx;
    } else {
      var a := Receive(g, rx, ds[..|ds| - 1]);
      ReceiveSane(g, rx, ds[..|ds| - 1]);
      var b := a.(buf := a.buf + ds[|ds| - 1].data);
      FailSane(a, b.buf);
      DrainSane(g, b, ds[|ds| - 1].io);
      OnwardTrans(a, b, Drain(g, b, ds[|ds| - 1].io));
      OnwardTrans(rx, a, Receive(g, rx, ds));
    }
  }

  lemma {:induction false} ReceiveMore(g: Gcm, rx: SfRx, first: seq<Delivery>, second: seq<Delivery>)
    requires GcmOk(g)
    ensures Receive(g, rx, first + second) == Receive(g, Receive(g, rx, first), second)
    decreases |second|
  {
    hide OnData;
    if second == [] {
      assert first + second == first;
    } else {
      assert (first + second)[..|first + second| - 1] == first + second[..|second| - 1];
      ReceiveMore(g, rx, first, second[..|second| - 1]);
    }
  }

  /**
   * Over every sequence of deliveries from any peer, with a disk that works or fails at any time: a file that
   * is open or done lies under the receive directory by its name, never exceeds its announced size, and has
   * exactly that size when done; what is written is never taken back, and the final states are final.
   */
  lemma {:induction false} OnlySafeFiles(g: Gcm, hasDir: bool, first: seq<Delivery>, second: seq<Delivery>)
    requires GcmOk(g)
    ensures var fresh_ := FRESH_RX.(hasDir := hasDir);
            && Sane(Receive(g, fresh_, first))
            && Onward(Receive(g, fresh_, first), Receive(g, fresh_, first + second))
  {
    hide Receive, Onward;
    var fresh_ := FRESH_RX.(hasDir := hasDir);
    ReceiveSane(g, fresh_, first);
    ReceiveMore(g, fresh_, first, second);
    ReceiveSane(g, Receive(g, fresh_, first), second);
  }

  // ---------------------------------------------------------------- done, and with what

  /** The plaintexts of the frames a stream begins with, up to the first that cannot be opened. */
  function Plaintexts(g: Gcm, stream: seq<byte>): seq<seq<byte>>
    requires GcmOk(g)
    decreases |stream|
  {
    if !FrameReady(stream) then []
    else
      var total := 4 + GetU32(stream, 0);
      if total > |stream| then []
      else
        match Parse(g, stream[..total], CHUNK)
        case None => []
        case Some(p) => [p.data] + Plaintexts(g, stream[total..])
  }

  /** Some of the first chunks make up exactly the rest of a file. */
  predicate Completes(chunks: seq<seq<byte>>, rest: seq<byte>) {
    exists k | 0 < k <= |chunks| :: Flat(chunks[..k]) == rest
  }

  lemma FlatFirst(c: seq<byte>, more: seq<seq<byte>>, k: nat)
    requires 0 < k <= |more| + 1
    ensures ([c] + more)[..k] == [c] + more[..k - 1]
    ensures Flat(([c] + more)[..k]) == c + Flat(more[..k - 1])
  {
    FlatCons(c, more[..k - 1]);
    assert ([c] + more)[..k] == [c] + more[..k - 1];
  }

  lemma CompletesOne(c: seq<byte>, more: seq<seq<byte>>, rest: seq<byte>)
    ensures Completes([c] + more, rest) <==> c == rest || (c <= rest && Completes(more, rest[|c|..]))
  {
    hide Flat;
    var all := [c] + more;
    FlatFirst(c, more, 1);
    NoChunks();
    assert more[..0] == [] && c + [] == c;
    if c == rest {
      assert Flat(all[..1]) == rest;
    }
    if c <= rest && Completes(more, rest[|c|..]) {
      var k :| 0 < k <= |more| && Flat(more[..k]) == rest[|c|..];
      FlatFirst(c, more, k + 1);
      assert rest == c + rest[|c|..];
      assert Flat(all[..k + 1]) == rest;
    }
    if Completes(all, rest) {
      var k :| 0 < k <= |all| && Flat(all[..k]) == rest;
      FlatFirst(c, more, k);
      assert rest[|c|..] == Flat(more[..k - 1]);
    }
  }

  lemma NoChunks()
    ensures Flat<byte>([]) == []
  {
  }

  /** From an open file: done with `file` means that the next chunks complete it. */
  lemma {:induction false} DoneFrom(g: Gcm, rx: SfRx, file: seq<byte>)
    requires GcmOk(g) && rx.state == RxData && rx.total == |file|
    ensures var r := Drain(g, rx, true);
            r.state == RxDone && r.written == file
            <==> rx.written <= file && Completes(Plaintexts(g, rx.buf), file[|rx.written|..])
    decreases |rx.buf|
  {
    hide Parse, GetU32, Add32, Completes, ReadChunk;
    NothingCompletes(file[if |rx.written| <= |file| then |rx.written| else 0..]);
    if FrameReady(rx.buf) && 4 + GetU32(rx.buf, 0) <= |rx.buf| {
      var total := 4 + GetU32(rx.buf, 0);
      var frame := rx.buf[..total];
      if Parse(g, frame, CHUNK).Some? {
        var c := Parse(g, frame, CHUNK).value.data;
        var more := Plaintexts(g, rx.buf[total..]);
        WritesIff(rx, c, true);
        var next := ReadChunk(rx, c, true).rx.(buf := rx.buf[total..]);
        if rx.written <= file {
          CompletesOne(c, more, file[|rx.written|..]);
          Appended(rx.written, c, file);
        }
        if ReadChunk(rx, c, true).cont && next.state == RxData {
          DoneFrom(g, next, file);
        }
      }
    }
  }

  lemma NothingCompletes(rest: seq<byte>)
    ensures !Completes([], rest)
  {
  }

  lemma Appended(a: seq<byte>, c: seq<byte>, file: seq<byte>)
    requires a <= file
    ensures a + c <= file <==> c <= file[|a|..]
    ensures a + c <= file ==> file[|a + c|..] == file[|a|..][|c|..]
    ensures a + c == file <==> c == file[|a|..]
  {
    if a + c <= file {
      assert file[|a|..][..|c|] == c;
    }
    if c <= file[|a|..] {
      assert file == a + file[|a|..];
    }
  }

  function Joined(ds: seq<Delivery>): seq<byte> {
    if ds == [] then [] else Joined(ds[..|ds| - 1]) + ds[|ds| - 1].data
  }

  lemma EmptyDrain(g: Gcm, io: bool)
    requires GcmOk(g)
    ensures Drain(g, FRESH_RX, io) == FRESH_RX
  {
  }

  lemma DirStays(g: Gcm, ds: seq<Delivery>)
    requires GcmOk(g)
    ensures Receive(g, FRESH_RX, ds).hasDir
  {
    hide Receive;
    ReceiveSane(g, FRESH_RX, ds);
  }

  /** With a disk that works, the deliveries can be read as one. */
  lemma {:induction false} AsOne(g: Gcm, ds: seq<Delivery>)
    requires GcmOk(g) && (forall i | 0 <= i < |ds| :: ds[i].io) && |Joined(ds)| < MOD
    ensures Receive(g, FRESH_RX, ds) == Drain(g, FRESH_RX.(buf := Joined(ds)), true)
  {
    hide Drain;
    if ds == [] {
      EmptyDrain(g, true);
    } else {
      var front := ds[..|ds| - 1];
      AsOne(g, front);
      DrainThenAppend(g, FRESH_RX.(buf := Joined(front)), ds[|ds| - 1].data, true);
    }
  }

  /** The first plaintext announces a file of this size and name, and the next ones add up to it. */
  ghost predicate Describes(ps: seq<seq<byte>>, name: seq<byte>, file: seq<byte>) {
    && ps != [] && |file| < 0x1_0000_0000_0000_0000 && Completes(ps[1..], file)
    && exists raw :: IsMeta(ps[0], |file|, raw) && CStr(raw) == name
  }

  lemma DoneInOne(g: Gcm, stream: seq<byte>, name: seq<byte>, file: seq<byte>)
    requires GcmOk(g)
    ensures var r := Drain(g, FRESH_RX.(buf := stream), true);
            r.state == RxDone && r.name == name && r.written == file
            <==> Describes(Plaintexts(g, stream), name, file)
  {
    var rx := FRESH_RX.(buf := stream);
    var r := Drain(g, rx, true);
    if FrameReady(stream) && 4 + GetU32(stream, 0) <= |stream|
        && Parse(g, stream[..4 + GetU32(stream, 0)], CHUNK).Some? {
      var total := 4 + GetU32(stream, 0);
      var out := Parse(g, stream[..total], CHUNK).value.data;
      hide Parse, GetU32, Completes, ReadMeta, IsMeta, CStr;
      OpensIff(rx, out, true);
      var s := ReadMeta(rx, out, true);
      var next := s.rx.(buf := stream[total..]);
      assert Plaintexts(g, stream)[1..] == Plaintexts(g, next.buf);
      if s.cont {
        var size: u64, raw :| IsMeta(out, size, raw)
                              && s.rx == rx.(state := RxData, total := size, name := CStr(raw), written := []);
        MetaOnce(out, size, raw);
        OpenIsSafe(rx, next, out, size, raw);
        SameName(g, next);
        if size == |file| {
          DoneFrom(g, next, file);
          assert file[|next.written|..] == file;
        }
      }
    }
  }

  lemma OpenIsSafe(rx: SfRx, next: SfRx, out: seq<byte>, size: u64, raw: seq<byte>)
    requires rx.hasDir && IsMeta(out, size, raw)
    requires next == rx.(state := RxData, total := size, name := CStr(raw), written := [], buf := next.buf)
    ensures next.hasDir && SafeBytes(next.name) && |next.written| <= next.total
  {
    hide CStr, SafeBytes;
  }

  lemma MetaOnce(out: seq<byte>, total: u64, raw: seq<byte>)
    requires IsMeta(out, total, raw)
    ensures forall total': u64, raw' | IsMeta(out, total', raw') :: total' == total && raw' == raw
  {
    forall total': u64, raw' | IsMeta(out, total', raw')
      ensures total' == total && raw' == raw
    {
      MetaUnique(out, total, raw, total', raw');
    }
  }

  /** Reading on changes neither the name nor the size of an open file. */
  lemma SameName(g: Gcm, rx: SfRx)
    requires GcmOk(g) && rx.state == RxData && rx.hasDir && SafeBytes(rx.name) && |rx.written| <= rx.total
    ensures Drain(g, rx, true).name == rx.name && Drain(g, rx, true).total == rx.total
    ensures Drain(g, rx, true).state == RxDone ==> |Drain(g, rx, true).written| == rx.total
  {
    hide Drain, SafeBytes;
    DrainSane(g, rx, true);
  }

  /**
   * Whatever a peer sends, in whatever pieces, to a fresh session that expects a file and whose disk works:
   * the session ends up done with a file and a name if and only if the first plaintext is a metadata record of
   * that size with that safe name and some of the next plaintexts add up to the file.
   */
  lemma {:induction false} DoneIff(g: Gcm, ds: seq<Delivery>, name: seq<byte>, file: seq<byte>)
    requires GcmOk(g) && (forall i | 0 <= i < |ds| :: ds[i].io) && |Joined(ds)| < MOD
    ensures var r := Receive(g, FRESH_RX, ds);
            r.state == RxDone && r.name == name && r.written == file
            <==> Describes(Plaintexts(g, Joined(ds)), name, file)
  {
    hide Drain, Describes;
    AsOne(g, ds);
    DoneInOne(g, Joined(ds), name, file);
  }
}
