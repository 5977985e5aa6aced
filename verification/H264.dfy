/**
 * The H.264 test clip (src/proto/h264_testfile.c): NAL units with emulation prevention (section 7.4.1 of
 * ITU-T H.264) in the byte stream format (Annex B of ITU-T H.264), and the scanner that checks them.
 */
module H264 {
  import opened Bytes

  const SPS: byte := 0x67
  const PPS: byte := 0x68
  const IDR: byte := 0x65
  const NON_IDR: byte := 0x41
  const SPS_PAYLOAD: nat := 17
  const PPS_PAYLOAD: nat := 4
  const SLICE_PAYLOAD: nat := 4096
  const MIN_BUDGET: nat := 8192
  const START_CODE: seq<byte> := [0, 0, 0, 1]

  // ---------------------------------------------------------------- emulation prevention

  /** How many zeros (two at most) a byte leaves behind when `z` were there before. */
  function After(z: nat, b: byte): nat {
    if b != 0 then 0 else if z >= 1 then 2 else 1
  }

  /** Content as it is written after `z` zero bytes: 03 goes in before any byte that would complete 00 00 0x. */
  function Escape(z: nat, content: seq<byte>): seq<byte>
    decreases |content|
  {
    if content == [] then []
    else if z == 2 && content[0] <= 3 then [3, content[0]] + Escape(After(0, content[0]), content[1..])
    else [content[0]] + Escape(After(z, content[0]), content[1..])
  }

  /** The reader's view: a 03 after two zeros is dropped. */
  function Unescape(z: nat, s: seq<byte>): seq<byte>
    decreases |s|
  {
    if s == [] then []
    else if z == 2 && s[0] == 3 then Unescape(0, s[1..])
    else [s[0]] + Unescape(After(z, s[0]), s[1..])
  }

  /** Removing the inserted bytes restores the content. */
  lemma {:induction false} EscapeRoundTrip(z: nat, content: seq<byte>)
    ensures Unescape(z, Escape(z, content)) == content
    decreases |content|
  {
    if content != [] {
      var b := content[0];
      var s := Escape(z, content);
      if z == 2 && b <= 3 {
        var rest := Escape(After(0, b), content[1..]);
        assert s[1..] == [b] + rest && ([b] + rest)[1..] == rest;
        EscapeRoundTrip(After(0, b), content[1..]);
      } else {
        assert s[1..] == Escape(After(z, b), content[1..]);
        EscapeRoundTrip(After(z, b), content[1..]);
      }
    }
  }

  lemma {:induction false} EscapeSize(z: nat, content: seq<byte>)
    requires z <= 2
    ensures |content| <= |Escape(z, content)| && 2 * |Escape(z, content)| <= 3 * |content| + z
    decreases |content|
  {
    if content != [] {
      var b := content[0];
      if z == 2 && b <= 3 {
        EscapeSize(After(0, b), content[1..]);
      } else {
        EscapeSize(After(z, b), content[1..]);
      }
    }
  }

  /** How many zeros end the buffer. */
  function Trailing(a: seq<byte>): nat {
    if |a| >= 2 && a[|a| - 2] == 0 && a[|a| - 1] == 0 then 2
    else if |a| >= 1 && a[|a| - 1] == 0 then 1
    else 0
  }

  function Nal(hdr: byte, content: seq<byte>): seq<byte> {
    START_CODE + [hdr] + Escape(0, content)
  }

  /** Append a NAL: start code, header, content with 03 inserted by looking back at the buffer. */
  method AppendNal(a: seq<byte>, hdr: byte, content: seq<byte>) returns (r: seq<byte>)
    requires hdr != 0
    ensures r == a + Nal(hdr, content)
  {
    hide Trailing;
    r := a + START_CODE + [hdr];
    ghost var base := r;
    TrailingAfter(a + START_CODE, hdr);
    var i := 0;
    while i < |content|
      invariant 0 <= i <= |content|
      invariant r + Escape(Trailing(r), content[i..]) == base + Escape(0, content)
    {
      var b := content[i];
      assert content[i..][0] == b && content[i..][1..] == content[i + 1..];
      ghost var z := Trailing(r);
      ghost var before := r;
      TrailingMeans(r);
      if |r| >= 2 && r[|r| - 2] == 0 && r[|r| - 1] == 0 && b <= 3 {
        r := r + [3];
        TrailingAfter(before, 3);
        TrailingAfter(r, b);
        r := r + [b];
        assert r + Escape(After(0, b), content[i + 1..]) == before + ([3, b] + Escape(After(0, b), content[i + 1..]));
      } else {
        TrailingAfter(r, b);
        r := r + [b];
        assert r + Escape(After(z, b), content[i + 1..]) == before + ([b] + Escape(After(z, b), content[i + 1..]));
      }
      i := i + 1;
    }
    assert content[i..] == [];
    assert base + Escape(0, content) == a + Nal(hdr, content);
  }

  lemma TrailingMeans(a: seq<byte>)
    ensures Trailing(a) == 2 <==> |a| >= 2 && a[|a| - 2] == 0 && a[|a| - 1] == 0
  {
  }

  lemma TrailingAfter(a: seq<byte>, b: byte)
    ensures Trailing(a + [b]) == After(Trailing(a), b)
  {
  }

  // ---------------------------------------------------------------- the generator

  datatype Unit = Unit(hdr: byte, content: seq<byte>)

  function Stream(units: seq<Unit>): seq<byte> {
    if units == [] then [] else Stream(units[..|units| - 1]) + Nal(units[|units| - 1].hdr, units[|units| - 1].content)
  }

  lemma StreamSnoc(units: seq<Unit>, u: Unit)
    ensures Stream(units + [u]) == Stream(units) + Nal(u.hdr, u.content)
  {
    assert (units + [u])[..|units|] == units;
  }

  /** The content bytes from position `at` of the pseudo-random sequence. */
  function Content(source: nat -> byte, at: nat, n: nat): seq<byte> {
    seq(n, i requires 0 <= i < n => source(at + i))
  }

  /** SPS, PPS, one IDR slice, then `k` more slices, with consecutive content. */
  function Clip(source: nat -> byte, k: nat): (u: seq<Unit>)
    ensures |u| == 3 + k
  {
    if k == 0 then
      [Unit(SPS, Content(source, 0, SPS_PAYLOAD)), Unit(PPS, Content(source, SPS_PAYLOAD, PPS_PAYLOAD)),
       Unit(IDR, Content(source, SPS_PAYLOAD + PPS_PAYLOAD, SLICE_PAYLOAD))]
    else
      var slice := Content(source, SPS_PAYLOAD + PPS_PAYLOAD + SLICE_PAYLOAD * k, SLICE_PAYLOAD);
      Clip(source, k - 1) + [Unit(NON_IDR, slice)]
  }

  lemma NalSize(hdr: byte, content: seq<byte>)
    ensures 5 + |content| <= |Nal(hdr, content)| <= 5 + 3 * |content| / 2
  {
    EscapeSize(0, content);
  }

  lemma ClipStart(source: nat -> byte)
    ensures |Stream(Clip(source, 0))| <= MIN_BUDGET
    ensures var u := Clip(source, 0);
            Stream(u) == [] + Nal(SPS, u[0].content) + Nal(PPS, u[1].content) + Nal(IDR, u[2].content)
  {
    var u := Clip(source, 0);
    assert u == [] + [u[0]] + [u[1]] + [u[2]];
    StreamSnoc([], u[0]);
    StreamSnoc([] + [u[0]], u[1]);
    StreamSnoc([] + [u[0]] + [u[1]], u[2]);
    NalSize(SPS, u[0].content);
    NalSize(PPS, u[1].content);
    NalSize(IDR, u[2].content);
  }

  /**
   * The generator fills the budget and drops the slice that exceeds it: what it returns is the longest clip
   * that fits.
   */
  method Generate(source: nat -> byte, size: nat) returns (a: Option<seq<byte>>, ghost k: nat)
    ensures a.None? <==> size < MIN_BUDGET
    ensures a.Some? ==> a.value == Stream(Clip(source, k)) && |a.value| <= size < |Stream(Clip(source, k + 1))|
  {
    hide Nal, Content, Stream;
    k := 0;
    if size < MIN_BUDGET {
      return None, 0;
    }
    ClipStart(source);
    var buf := AppendNal([], SPS, Content(source, 0, SPS_PAYLOAD));
    buf := AppendNal(buf, PPS, Content(source, SPS_PAYLOAD, PPS_PAYLOAD));
    buf := AppendNal(buf, IDR, Content(source, SPS_PAYLOAD + PPS_PAYLOAD, SLICE_PAYLOAD));
    var at := SPS_PAYLOAD + PPS_PAYLOAD + SLICE_PAYLOAD;
    while true
      invariant at == SPS_PAYLOAD + PPS_PAYLOAD + SLICE_PAYLOAD * (k + 1)
      invariant buf == Stream(Clip(source, k)) && |buf| <= size
      decreases size - |buf|
    {
      var before := |buf|;
      var slice := Content(source, at, SLICE_PAYLOAD);
      StreamSnoc(Clip(source, k), Unit(NON_IDR, slice));
      NalSize(NON_IDR, slice);
      buf := AppendNal(buf, NON_IDR, slice);
      assert buf == Stream(Clip(source, k + 1));
      if |buf| > size {
        buf := buf[..before];
        break;
      }
      at := at + SLICE_PAYLOAD;
      k := k + 1;
    }
    a := Some(buf);
  }

  // ---------------------------------------------------------------- the scanner

  /** The byte after the start code; the buffer is NUL-terminated. */
  function ByteAt(s: seq<byte>, i: nat): byte {
    if i < |s| then s[i] else 0
  }

  predicate CodeAt(s: seq<byte>, i: nat) {
    i + 2 < |s| && s[i] == 0 && s[i + 1] == 0 && s[i + 2] == 1
  }

  /** The header bytes found in a stream. */
  function Scan(s: seq<byte>): seq<byte> {
    if |s| < 3 then []
    else if CodeAt(s, 0) then [ByteAt(s, 3)] + Scan(s[3..])
    else Scan(s[1..])
  }

  /** The structure automaton; 100 is the error state. */
  function Structure(st: nat, t: byte): nat {
    if st == 0 then (if t == 7 then 1 else 100)
    else if st == 1 then (if t == 8 then 2 else 100)
    else if st == 2 then (if t == 5 then 3 else if t != 6 then 100 else 2)
    else if st == 3 then (if t in {1, 5, 6, 7, 8} then 3 else 100)
    else st
  }

  function Run(st: nat, hdrs: seq<byte>): nat
    decreases |hdrs|
  {
    if hdrs == [] then st else Run(Structure(st, hdrs[0] % 32), hdrs[1..])
  }

  function FirstCode(s: seq<byte>): int {
    if |s| < 3 then -1
    else if CodeAt(s, 0) then 0
    else
      var k := FirstCode(s[1..]);
      if k < 0 then -1 else k + 1
  }

  // ---------------------------------------------------------------- what the scan accepts

  /** An SPS, a PPS, any number of SEI, an IDR slice, then slices, SEI, SPS and PPS in any order. */
  predicate WellOrdered(hdrs: seq<byte>) {
    && |hdrs| >= 3 && hdrs[0] % 32 == 7 && hdrs[1] % 32 == 8
    && exists k | 2 <= k < |hdrs| ::
         && (forall i | 2 <= i < k :: hdrs[i] % 32 == 6) && hdrs[k] % 32 == 5
         && (forall i | k < i < |hdrs| :: hdrs[i] % 32 in {1, 5, 6, 7, 8})
  }

  predicate Later(hdrs: seq<byte>) {
    forall i | 0 <= i < |hdrs| :: hdrs[i] % 32 in {1, 5, 6, 7, 8}
  }

  lemma {:induction false} ErrorStays(hdrs: seq<byte>)
    ensures Run(100, hdrs) == 100
    decreases |hdrs|
  {
    if hdrs != [] {
      ErrorStays(hdrs[1..]);
    }
  }

  lemma {:induction false} LaterIff(hdrs: seq<byte>)
    ensures Run(3, hdrs) == 3 <==> Later(hdrs)
    decreases |hdrs|
  {
    if hdrs != [] {
      LaterIff(hdrs[1..]);
      ErrorStays(hdrs[1..]);
      assert Later(hdrs) <==> hdrs[0] % 32 in {1, 5, 6, 7, 8} && Later(hdrs[1..]) by {
        if Later(hdrs) {
          assert forall i | 0 <= i < |hdrs[1..]| :: hdrs[1..][i] == hdrs[i + 1];
        }
        if hdrs[0] % 32 in {1, 5, 6, 7, 8} && Later(hdrs[1..]) {
          assert forall i | 0 < i < |hdrs| :: hdrs[i] == hdrs[1..][i - 1];
        }
      }
    }
  }

  /** SEI up to an IDR slice at position `k`, and what may follow it. */
  predicate IdrAt(hdrs: seq<byte>, k: nat)
    requires k < |hdrs|
  {
    && (forall i | 0 <= i < k :: hdrs[i] % 32 == 6) && hdrs[k] % 32 == 5
    && (forall i | k < i < |hdrs| :: hdrs[i] % 32 in {1, 5, 6, 7, 8})
  }

  lemma {:induction false} IdrIff(hdrs: seq<byte>)
    ensures Run(2, hdrs) == 3 <==> exists k | 0 <= k < |hdrs| :: IdrAt(hdrs, k)
    decreases |hdrs|
  {
    if hdrs != [] {
      var rest := hdrs[1..];
      ErrorStays(rest);
      LaterIff(rest);
      IdrIff(rest);
      assert forall i | 0 <= i < |rest| :: rest[i] == hdrs[i + 1];
      assert forall i | 0 < i < |hdrs| :: hdrs[i] == rest[i - 1];
      if hdrs[0] % 32 == 5 && Later(rest) {
        assert IdrAt(hdrs, 0);
      }
      if hdrs[0] % 32 == 6 {
        if k :| 0 <= k < |rest| && IdrAt(rest, k) {
          assert IdrAt(hdrs, k + 1);
        }
        if k :| 0 <= k < |hdrs| && IdrAt(hdrs, k) {
          assert IdrAt(rest, k - 1);
        }
      }
    }
  }

  /** The automaton accepts exactly the well-ordered lists. */
  lemma {:induction false} AcceptedIff(hdrs: seq<byte>)
    ensures Run(0, hdrs) == 3 <==> WellOrdered(hdrs)
  {
    if hdrs != [] {
      ErrorStays(hdrs[1..]);
      if |hdrs| >= 2 {
        ErrorStays(hdrs[1..][1..]);
        var rest := hdrs[2..];
        assert hdrs[1..][1..] == rest;
        IdrIff(rest);
        assert forall i | 0 <= i < |rest| :: rest[i] == hdrs[i + 2];
        assert forall i | 2 <= i < |hdrs| :: hdrs[i] == rest[i - 2];
        hide Run;
        if k :| 0 <= k < |rest| && IdrAt(rest, k) {
          IdrShift(hdrs, k);
        }
        if k :| 2 <= k < |hdrs| && (forall i | 2 <= i < k :: hdrs[i] % 32 == 6) && hdrs[k] % 32 == 5
                && (forall i | k < i < |hdrs| :: hdrs[i] % 32 in {1, 5, 6, 7, 8}) {
          assert IdrAt(rest, k - 2);
        }
        RunTwo(hdrs);
      }
    }
  }

  lemma IdrShift(hdrs: seq<byte>, k: nat)
    requires |hdrs| >= 2 && k < |hdrs[2..]| && IdrAt(hdrs[2..], k)
    ensures hdrs[0] % 32 == 7 && hdrs[1] % 32 == 8 ==> WellOrdered(hdrs)
  {
    var rest := hdrs[2..];
    assert forall i | 2 <= i < |hdrs| :: hdrs[i] == rest[i - 2];
    assert hdrs[k + 2] % 32 == 5;
  }

  lemma RunTwo(hdrs: seq<byte>)
    requires |hdrs| >= 2
    ensures Run(0, hdrs) == if hdrs[0] % 32 != 7 || hdrs[1] % 32 != 8 then 100 else Run(2, hdrs[2..])
  {
    ErrorStays(hdrs[1..]);
    ErrorStays(hdrs[1..][1..]);
    assert hdrs[1..][1..] == hdrs[2..];
  }

  /** The positions of the start codes, from `i` on. */
  function Codes(s: seq<byte>, i: nat): seq<nat>
    requires i <= |s|
    decreases |s| - i
  {
    if i == |s| then [] else (if CodeAt(s, i) then [i] else []) + Codes(s, i + 1)
  }

  /** All start codes from `i` on, once each and in order. */
  ghost predicate Enumerates(s: seq<byte>, i: nat, at: seq<nat>) {
    && (forall p: nat :: p in at <==> i <= p < |s| && CodeAt(s, p))
    && (forall j, k | 0 <= j < k < |at| :: at[j] < at[k])
  }

  lemma OneMoreCode(s: seq<byte>, i: nat, at: seq<nat>)
    requires i < |s| && Enumerates(s, i + 1, at)
    ensures CodeAt(s, i) ==> Enumerates(s, i, [i] + at)
    ensures !CodeAt(s, i) ==> Enumerates(s, i, at)
  {
    hide CodeAt;
    var more := [i] + at;
    assert forall k | 0 < k < |more| :: more[k] == at[k - 1];
    forall p: nat
      ensures p in more <==> p == i || p in at
    {
      if p in at {
        var k :| 0 <= k < |at| && at[k] == p;
        assert more[k + 1] == p;
      }
      assert more[0] == i;
    }
    forall j, k | 0 <= j < k < |more|
      ensures more[j] < more[k]
    {
      assert more[k] == at[k - 1] && at[k - 1] in at;
    }
  }

  lemma {:induction false} CodesAre(s: seq<byte>, i: nat)
    requires i <= |s|
    ensures Enumerates(s, i, Codes(s, i))
    decreases |s| - i
  {
    hide CodeAt;
    if i < |s| {
      CodesAre(s, i + 1);
      OneMoreCode(s, i, Codes(s, i + 1));
      assert [] + Codes(s, i + 1) == Codes(s, i + 1);
    }
  }

  function HeadersAt(s: seq<byte>, at: seq<nat>): seq<byte> {
    seq(|at|, k requires 0 <= k < |at| => ByteAt(s, at[k] + 3))
  }

  lemma CodesStep(s: seq<byte>, i: nat)
    requires i < |s|
    ensures Codes(s, i) == (if CodeAt(s, i) then [i] else []) + Codes(s, i + 1)
  {
  }

  lemma CodesPass(s: seq<byte>, i: nat)
    requires i < |s| && !CodeAt(s, i)
    ensures Codes(s, i) == Codes(s, i + 1)
  {
    CodesStep(s, i);
    hide Codes, CodeAt;
    assert [] + Codes(s, i + 1) == Codes(s, i + 1);
  }

  /** After a start code none begins in the next two bytes. */
  lemma CodesSkip(s: seq<byte>, i: nat)
    requires i + 2 < |s| && CodeAt(s, i)
    ensures Codes(s, i) == [i] + Codes(s, i + 3)
  {
    assert !CodeAt(s, i + 1) && !CodeAt(s, i + 2);
    hide CodeAt, Codes;
    CodesStep(s, i);
    CodesPass(s, i + 1);
    CodesPass(s, i + 2);
  }

  lemma NoCodes(s: seq<byte>, i: nat)
    requires i <= |s| < i + 3
    ensures Codes(s, i) == []
    decreases |s| - i
  {
    if i < |s| {
      NoCodes(s, i + 1);
    }
  }

  lemma HeadersCons(s: seq<byte>, i: nat, at: seq<nat>)
    ensures HeadersAt(s, [i] + at) == [ByteAt(s, i + 3)] + HeadersAt(s, at)
  {
  }

  /** The scan finds the byte after every start code, and nothing else. */
  lemma {:induction false} ScanIs(s: seq<byte>, i: nat)
    requires i <= |s|
    ensures Scan(s[i..]) == HeadersAt(s, Codes(s, i))
    decreases |s| - i
  {
    hide Codes, HeadersAt;
    var rest := s[i..];
    if |rest| < 3 {
      NoCodes(s, i);
      assert HeadersAt(s, []) == [] by {
        NoHeaders(s);
      }
    } else if CodeAt(s, i) {
      assert rest[3..] == s[i + 3..] && ByteAt(rest, 3) == ByteAt(s, i + 3);
      ScanIs(s, i + 3);
      CodesSkip(s, i);
      HeadersCons(s, i, Codes(s, i + 3));
    } else {
      assert rest[1..] == s[i + 1..];
      ScanIs(s, i + 1);
      CodesStep(s, i);
      assert [] + Codes(s, i + 1) == Codes(s, i + 1);
    }
  }

  lemma NoHeaders(s: seq<byte>)
    ensures HeadersAt(s, []) == []
  {
  }

  /** The scan of `h264_testfile_verify`: whether the structure is accepted and how many NALs there are. */
  method Verify(data: seq<byte>) returns (ok: bool, nals: nat)
    ensures |data| >= 10 ==> nals == |Codes(data, 0)|
    ensures ok <==> |data| >= 10 && (CodeAt(data, 0) || CodeAt(data, 1)) && WellOrdered(HeadersAt(data, Codes(data, 0)))
  {
    nals := 0;
    if |data| < 10 {
      return false, 0;
    }
    var first, st, i := -1, 0, 0;
    while i + 2 < |data|
      invariant 0 <= i <= |data|
      invariant nals + |Scan(data[i..])| == |Scan(data)|
      invariant Run(st, Scan(data[i..])) == Run(0, Scan(data))
      invariant first >= 0 ==> first == FirstCode(data)
      invariant first < 0 ==>
                  && first == -1
                  && FirstCode(data) == (if FirstCode(data[i..]) < 0 then -1 else i + FirstCode(data[i..]))
      decreases |data| - i
    {
      ghost var rest := data[i..];
      assert rest[1..] == data[i + 1..] && rest[3..] == data[i + 3..];
      if data[i] == 0 && data[i + 1] == 0 && data[i + 2] == 1 {
        var h := if i + 3 < |data| then data[i + 3] else 0;
        assert h == ByteAt(rest, 3);
        if first < 0 {
          first := i;
        }
        st := Structure(st, h % 32);
        nals := nals + 1;
        i := i + 2;
      }
      i := i + 1;
    }
    assert Scan(data[i..]) == [];
    assert data[0..] == data && data[1..][0..] == data[1..];
    ScanIs(data, 0);
    AcceptedIff(Scan(data));
    assert FirstCode(data) in {0, 1} <==> CodeAt(data, 0) || CodeAt(data, 1);
    ok := (first == 0 || first == 1) && st == 3 && nals >= 3;
  }

  // ---------------------------------------------------------------- the scanner finds what was appended

  /** What may follow a NAL: nothing, or the next start code. */
  predicate Boundary(tail: seq<byte>) {
    tail == [] || (|tail| >= 5 && tail[..4] == START_CODE)
  }

  lemma ScanSkip(s: seq<byte>)
    requires s != [] && !CodeAt(s, 0)
    ensures Scan(s) == Scan(s[1..])
  {
  }

  /** Zeros before a boundary are not part of a start code of their own. */
  lemma ScanZeros(z: nat, tail: seq<byte>)
    requires z <= 2 && Boundary(tail)
    ensures Scan(Zeros(z) + tail) == Scan(tail)
    decreases z
  {
    if z == 0 {
      assert Zeros(0) + tail == tail;
    } else {
      var s := Zeros(z) + tail;
      assert s[1..] == Zeros(z - 1) + tail;
      if tail != [] {
        assert tail[..4][0] == 0 && tail[..4][1] == 0 && tail[..4][2] == 0;
        assert s[0] == 0 && s[1] == 0 && s[2] == 0;
      }
      ScanSkip(s);
      ScanZeros(z - 1, tail);
    }
  }

  /** No start code begins inside escaped content. */
  lemma {:induction false} ScanContent(z: nat, content: seq<byte>, tail: seq<byte>)
    requires z <= 2 && Boundary(tail)
    ensures Scan(Zeros(z) + (Escape(z, content) + tail)) == Scan(tail)
    decreases |content|
  {
    hide Scan, Boundary, Zeros;
    if content == [] {
      assert Escape(z, content) + tail == tail;
      ScanZeros(z, tail);
    } else {
      var b := content[0];
      var y := if z == 2 && b <= 3 then 0 else z;
      var more := Escape(After(y, b), content[1..]);
      if z == 2 && b <= 3 {
        assert [3, b] + more + tail == [3, b] + (more + tail);
        SkipThree(b, more + tail);
      } else {
        assert [b] + more + tail == [b] + (more + tail);
      }
      NextByte(y, b, more + tail);
      ScanContent(After(y, b), content[1..], tail);
    }
  }

  lemma SkipThree(b: byte, rest: seq<byte>)
    ensures Scan(Zeros(2) + ([3, b] + rest)) == Scan(Zeros(0) + ([b] + rest))
  {
    hide Scan;
    assert Zeros(2) + ([3, b] + rest) == [0, 0, 3, b] + rest;
    assert Zeros(0) + ([b] + rest) == [b] + rest;
    SkipFour(b, rest);
  }

  lemma SkipFour(b: byte, rest: seq<byte>)
    ensures Scan([0, 0, 3, b] + rest) == Scan([b] + rest)
  {
    var s := [0, 0, 3, b] + rest;
    assert s[1..] == [0, 3, b] + rest;
    assert s[1..][1..] == [3, b] + rest;
    assert s[1..][1..][1..] == [b] + rest;
    ScanSkip(s);
    ScanSkip(s[1..]);
    ScanSkip(s[1..][1..]);
  }

  /** One content byte that completes no forbidden triple. */
  lemma NextByte(z: nat, b: byte, rest: seq<byte>)
    requires z <= 2 && !(z == 2 && b <= 3)
    ensures Scan(Zeros(z) + ([b] + rest)) == Scan(Zeros(After(z, b)) + rest)
  {
    hide Scan;
    assert Zeros(z) + ([b] + rest) == Zeros(z) + [b] + rest;
    if b == 0 {
      assert Zeros(z) + [b] == Zeros(After(z, b));
    } else {
      assert Zeros(0) + rest == rest;
      DropZeros(z, b, rest);
    }
  }

  lemma DropZeros(z: nat, b: byte, rest: seq<byte>)
    requires z <= 2 && b != 0 && !(z == 2 && b == 1)
    ensures Scan(Zeros(z) + [b] + rest) == Scan(rest)
    decreases z
  {
    var s := Zeros(z) + [b] + rest;
    ScanSkip(s);
    if z == 0 {
      assert s[1..] == rest;
    } else {
      assert s[1..] == Zeros(z - 1) + [b] + rest;
      DropZeros(z - 1, b, rest);
    }
  }

  lemma ScanNal(hdr: byte, content: seq<byte>, tail: seq<byte>)
    requires hdr != 0 && Boundary(tail)
    ensures Scan(Nal(hdr, content) + tail) == [hdr] + Scan(tail)
    ensures Boundary(Nal(hdr, content) + tail)
  {
    hide Escape;
    var body := Escape(0, content) + tail;
    var s := Nal(hdr, content) + tail;
    assert s == [0, 0, 0, 1, hdr] + body;
    ScanCode(hdr, body);
    assert Zeros(0) + body == body;
    ScanContent(0, content, tail);
  }

  lemma ScanCode(hdr: byte, body: seq<byte>)
    requires hdr != 0
    ensures Scan([0, 0, 0, 1, hdr] + body) == [hdr] + Scan(body)
  {
    var s := [0, 0, 0, 1, hdr] + body;
    assert s[1..] == [0, 0, 1, hdr] + body;
    assert s[1..][3..] == [hdr] + body;
    assert ([hdr] + body)[1..] == body;
    ScanSkip(s);
    ScanSkip([hdr] + body);
  }

  function Headers(units: seq<Unit>): seq<byte> {
    seq(|units|, i requires 0 <= i < |units| => units[i].hdr)
  }

  /** The scanner finds exactly the NAL units appended, in order. */
  lemma {:induction false} ScanStream(units: seq<Unit>, tail: seq<byte>)
    requires Boundary(tail) && forall i | 0 <= i < |units| :: units[i].hdr != 0
    ensures Scan(Stream(units) + tail) == Headers(units) + Scan(tail)
    decreases |units|
  {
    if units == [] {
      assert Stream(units) + tail == tail;
    } else {
      var k := |units| - 1;
      var u := units[k];
      hide Nal, Scan;
      assert Stream(units) + tail == Stream(units[..k]) + (Nal(u.hdr, u.content) + tail);
      ScanNal(u.hdr, u.content, tail);
      ScanStream(units[..k], Nal(u.hdr, u.content) + tail);
      assert Headers(units) == Headers(units[..k]) + [u.hdr];
    }
  }

  lemma {:induction false} RunAppend(st: nat, a: seq<byte>, b: seq<byte>)
    ensures Run(st, a + b) == Run(Run(st, a), b)
    decreases |a|
  {
    if a == [] {
      assert a + b == b;
    } else {
      assert (a + b)[1..] == a[1..] + b;
      RunAppend(Structure(st, a[0] % 32), a[1..], b);
    }
  }

  lemma {:induction false} ClipHeaders(source: nat -> byte, k: nat)
    ensures Run(0, Headers(Clip(source, k))) == 3
    ensures forall i | 0 <= i < |Clip(source, k)| :: Clip(source, k)[i].hdr != 0
  {
    hide Content;
    if k == 0 {
      assert Headers(Clip(source, 0)) == [SPS] + ([PPS] + ([IDR] + []));
      RunAppend(0, [SPS], [PPS] + ([IDR] + []));
      RunAppend(1, [PPS], [IDR] + []);
      RunAppend(2, [IDR], []);
    } else {
      ClipHeaders(source, k - 1);
      var last := Clip(source, k)[k + 2];
      assert Headers(Clip(source, k)) == Headers(Clip(source, k - 1)) + [NON_IDR];
      RunAppend(0, Headers(Clip(source, k - 1)), [NON_IDR]);
      assert Run(3, [NON_IDR]) == 3;
    }
  }

  /** For every content and every clip length, the scanner accepts the clip and counts its units. */
  lemma {:induction false} ClipIsAccepted(source: nat -> byte, k: nat)
    ensures var s := Stream(Clip(source, k));
            && |s| >= 10 && Scan(s) == Headers(Clip(source, k)) && |Scan(s)| == 3 + k
            && Run(0, Scan(s)) == 3 && FirstCode(s) == 1
  {
    var units := Clip(source, k);
    var s := Stream(units);
    ClipHeaders(source, k);
    ScanStream(units, []);
    assert s + [] == s && Headers(units) + Scan([]) == Headers(units);
    hide Run, Scan, Clip;
    StreamFront(units);
    assert s[..5][0] == 0 && s[..5][1] == 0 && s[..5][2] == 0 && s[..5][3] == 1;
    assert CodeAt(s[1..], 0);
  }

  lemma {:induction false} StreamFront(units: seq<Unit>)
    requires |units| >= 3
    ensures |Stream(units)| >= 15 && Stream(units)[..4] == START_CODE && Stream(units)[..5][..4] == START_CODE
    decreases |units|
  {
    hide Escape;
    var k := |units| - 1;
    if k == 2 {
      assert units == [] + [units[0]] + [units[1]] + [units[2]];
      StreamSnoc([], units[0]);
      StreamSnoc([] + [units[0]], units[1]);
      StreamSnoc([] + [units[0]] + [units[1]], units[2]);
    } else {
      StreamFront(units[..k]);
    }
  }

  lemma FirstCodeIs(s: seq<byte>)
    requires FirstCode(s) == 1
    ensures CodeAt(s, 1)
  {
  }

  /** Generate and verify, for every content and every sufficient budget. */
  method GenerateAndVerify(source: nat -> byte, size: nat) returns (ok: bool, nals: nat)
    requires size >= MIN_BUDGET
    ensures ok && nals >= 3
  {
    hide Scan, Run, Stream, Clip, FirstCode, Codes, CodeAt, WellOrdered;
    var a, k := Generate(source, size);
    ClipIsAccepted(source, k);
    ScanIs(a.value, 0);
    assert a.value[0..] == a.value;
    AcceptedIff(Scan(a.value));
    FirstCodeIs(a.value);
    ok, nals := Verify(a.value);
  }
}
