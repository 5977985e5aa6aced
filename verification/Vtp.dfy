/** The sealed VTP frame (src/proto/vtp_frame.c). AES-GCM is an unknown pair that opens what it sealed. */
module Vtp {
  import opened Bytes
  import opened Num32

  const NONCE_LEN: nat := 12
  const TAG_LEN: nat := 16
  const HEADER_LEN: nat := 16
  const MODE_COMMON: u16 := 1

  /** Seal and open under one key; the sealed text carries its tag. */
  datatype Gcm = Gcm(seal: (seq<byte>, seq<byte>) -> seq<byte>, open: (seq<byte>, seq<byte>) -> Option<seq<byte>>)

  ghost predicate GcmOk(g: Gcm) {
    && (forall nonce, plain :: |g.seal(nonce, plain)| == |plain| + TAG_LEN)
    && (forall nonce, plain :: g.open(nonce, g.seal(nonce, plain)) == Some(plain))
    && (forall nonce, text :: g.open(nonce, text).Some? ==> |text| == |g.open(nonce, text).value| + TAG_LEN)
  }

  datatype Fields = Fields(mode: u16, streamType: u16, scene: u16, stamp: u32)

  function Header(f: Fields, len: nat): (h: seq<byte>)
    ensures |h| == HEADER_LEN
  {
    PutU32((f.mode as int) % 0x10 * 0x100_0000 + f.streamType) + PutU32(f.stamp) + PutU32(Wrap(len))
    + PutU32((f.scene as int) * 0x1_0000)
  }

  /** Length prefix, nonce, sealed header and data. */
  function Build(g: Gcm, nonce: seq<byte>, f: Fields, data: seq<byte>): seq<byte> {
    PutU32(Wrap(NONCE_LEN + HEADER_LEN + |data| + TAG_LEN)) + nonce + g.seal(nonce, Header(f, |data|) + data)
  }

  datatype Parsed = Parsed(fields: Fields, data: seq<byte>)

  /** What the plaintext says, unless it uses an extension, lies about its length or does not fit. */
  function ParsePlain(plain: seq<byte>, cap: nat): Option<Parsed>
    requires HEADER_LEN <= |plain|
  {
    var flags := GetU32(plain, 0);
    var len := GetU32(plain, 8);
    if flags / 0x1000_0000 % 2 == 1 then None
    else if len != |plain| - HEADER_LEN then None
    else if len > cap then None
    else Some(Parsed(Fields(flags / 0x100_0000 % 0x10, flags % 0x1_0000, GetU32(plain, 12) / 0x1_0000,
                            GetU32(plain, 4)),
                     plain[HEADER_LEN..]))
  }

  function Parse(g: Gcm, msg: seq<byte>, cap: nat): Option<Parsed>
    requires GcmOk(g)
  {
    if |msg| < 4 + NONCE_LEN + HEADER_LEN + TAG_LEN then None
    else
      var n := GetU32(msg, 0);
      if n < NONCE_LEN + HEADER_LEN + TAG_LEN then None
      else if |msg| != Add32(4, n) then None
      else match g.open(msg[4..4 + NONCE_LEN], msg[4 + NONCE_LEN..])
        case None => None
        case Some(plain) => ParsePlain(plain, cap)
  }

  lemma PlainRoundTrip(f: Fields, data: seq<byte>, cap: nat)
    requires |data| < MOD && f.mode < 0x10
    ensures ParsePlain(Header(f, |data|) + data, cap) == if |data| <= cap then Some(Parsed(f, data)) else None
  {
    hide PutU32, GetU32;
    var plain := Header(f, |data|) + data;
    GetPutU32(plain, 0, (f.mode as int) * 0x100_0000 + f.streamType);
    GetPutU32(plain, 4, f.stamp);
    GetPutU32(plain, 8, |data|);
    GetPutU32(plain, 12, (f.scene as int) * 0x1_0000);
    assert plain[HEADER_LEN..] == data;
  }

  /** A frame is parsed back to its fields and data exactly when the data fits the reader's buffer. */
  lemma {:induction false} FrameRoundTrip(g: Gcm, nonce: seq<byte>, f: Fields, data: seq<byte>, cap: nat)
    requires GcmOk(g) && |nonce| == NONCE_LEN && f.mode < 0x10 && |data| < MOD - 48
    ensures Parse(g, Build(g, nonce, f, data), cap) == if |data| <= cap then Some(Parsed(f, data)) else None
  {
    var msg := Build(g, nonce, f, data);
    var plain := Header(f, |data|) + data;
    assert |g.seal(nonce, plain)| == |plain| + TAG_LEN;
    BuildPrefix(g, nonce, f, data);
    assert msg[4..4 + NONCE_LEN] == nonce;
    assert msg[4 + NONCE_LEN..] == g.seal(nonce, plain);
    assert g.open(nonce, g.seal(nonce, plain)) == Some(plain);
    PlainRoundTrip(f, data, cap);
  }

  /** The length prefix says how many bytes follow it. */
  lemma {:induction false} BuildPrefix(g: Gcm, nonce: seq<byte>, f: Fields, data: seq<byte>)
    requires GcmOk(g) && |nonce| == NONCE_LEN && |data| < MOD - 48
    ensures var msg := Build(g, nonce, f, data); |msg| == 48 + |data| && GetU32(msg, 0) == 44 + |data|
  {
    hide PutU32, GetU32, Header, Wrap;
    var text := g.seal(nonce, Header(f, |data|) + data);
    assert |text| == HEADER_LEN + |data| + TAG_LEN;
    PrefixIs(44 + |data|, nonce, text);
    SmallWrap(44 + |data|);
  }

  lemma SmallWrap(n: nat)
    requires n < MOD
    ensures Wrap(n) == n
  {
  }

  lemma PrefixIs(n: u32, nonce: seq<byte>, text: seq<byte>)
    ensures GetU32(PutU32(n) + nonce + text, 0) == n
  {
    hide PutU32, GetU32;
    var msg := PutU32(n) + nonce + text;
    assert msg == PutU32(n) + (nonce + text);
    assert msg[0..4] == PutU32(n);
    GetPutU32(msg, 0, n);
  }

  /** A header and its data, with the bits the reader skips: the top of the flags, one byte, half a word. */
  function Plain(p: Parsed, top: nat, skip: byte, low: u16): (s: seq<byte>)
    requires p.fields.mode < 0x10 && top < 8 && |p.data| < MOD
  {
    PutU32(top * 0x2000_0000 + p.fields.mode * 0x100_0000 + skip * 0x1_0000 + p.fields.streamType)
    + PutU32(p.fields.stamp) + PutU32(|p.data|) + PutU32((p.fields.scene as int) * 0x1_0000 + low) + p.data
  }

  /** The plaintext has the given meaning: the extension bit is clear, the length true, the data small enough. */
  ghost predicate Means(plain: seq<byte>, cap: nat, p: Parsed) {
    && p.fields.mode < 0x10 && |p.data| <= cap && |p.data| < MOD
    && exists top: nat, skip: byte, low: u16 | top < 8 :: plain == Plain(p, top, skip, low)
  }

  lemma PlainParts(flags: u32)
    ensures flags == flags / 0x2000_0000 * 0x2000_0000 + flags / 0x1000_0000 % 2 * 0x1000_0000
                     + flags / 0x100_0000 % 0x10 * 0x100_0000 + flags / 0x1_0000 % 0x100 * 0x1_0000 + flags % 0x1_0000
    ensures flags / 0x2000_0000 < 8
  {
    var a := flags / 0x1_0000;
    var b := a / 0x100;
    var c := b / 0x10;
    Quotients(flags, a);
    assert a == b * 0x100 + a % 0x100 && b == c * 0x10 + b % 0x10 && c == c / 2 * 2 + c % 2;
  }

  /** Dividing in stages. */
  lemma Quotients(flags: u32, a: nat)
    requires a == flags / 0x1_0000
    ensures flags / 0x100_0000 == a / 0x100 && flags / 0x1000_0000 == a / 0x100 / 0x10
    ensures flags / 0x2000_0000 == a / 0x100 / 0x10 / 2
  {
  }

  lemma FlagParts(top: nat, mode: nat, skip: byte, streamType: u16)
    requires top < 8 && mode < 0x10
    ensures var flags := top * 0x2000_0000 + mode * 0x100_0000 + skip * 0x1_0000 + streamType;
            && 0 <= flags < MOD && flags / 0x1000_0000 % 2 == 0 && flags / 0x100_0000 % 0x10 == mode
            && flags % 0x1_0000 == streamType
  {
    var flags := top * 0x2000_0000 + mode * 0x100_0000 + skip * 0x1_0000 + streamType;
    var low := skip * 0x1_0000 + streamType;
    assert 0 <= low < 0x100_0000 && flags == (top * 0x20 + mode) * 0x100_0000 + low;
    assert flags / 0x100_0000 == top * 0x20 + mode;
    assert flags / 0x1000_0000 == top * 2;
    assert flags == (top * 0x2000 + mode * 0x100 + skip) * 0x1_0000 + streamType;
  }

  /** Any plaintext at all is read with a meaning exactly when it has that meaning. */
  lemma {:induction false} ParsePlainIff(plain: seq<byte>, cap: nat, p: Parsed)
    requires HEADER_LEN <= |plain|
    ensures ParsePlain(plain, cap) == Some(p) <==> Means(plain, cap, p)
  {
    if ParsePlain(plain, cap) == Some(p) {
      MeansWhenParsed(plain, cap, p);
    }
    if Means(plain, cap, p) {
      ParsedWhenMeant(plain, cap, p);
    }
  }

  lemma FiveParts(plain: seq<byte>)
    requires HEADER_LEN <= |plain|
    ensures plain == PutU32(GetU32(plain, 0)) + PutU32(GetU32(plain, 4)) + PutU32(GetU32(plain, 8))
                     + PutU32(GetU32(plain, 12)) + plain[HEADER_LEN..]
  {
    PutGetU32(plain, 0);
    PutGetU32(plain, 4);
    PutGetU32(plain, 8);
    PutGetU32(plain, 12);
    hide PutU32, GetU32;
    assert plain == plain[0..4] + plain[4..8] + plain[8..12] + plain[12..16] + plain[16..];
  }

  lemma MeansWhenParsed(plain: seq<byte>, cap: nat, p: Parsed)
    requires HEADER_LEN <= |plain| && ParsePlain(plain, cap) == Some(p)
    ensures Means(plain, cap, p)
  {
    hide PutU32, GetU32;
    var flags := GetU32(plain, 0);
    var last := GetU32(plain, 12);
    var top, skip, low := flags / 0x2000_0000, flags / 0x1_0000 % 0x100, last % 0x1_0000;
    PlainParts(flags);
    FiveParts(plain);
    assert plain == Plain(p, top, skip, low);
  }

  lemma ReadPlain(plain: seq<byte>, cap: nat, flags: u32, stamp: u32, size: u32, last: u32)
    requires HEADER_LEN <= |plain|
    requires GetU32(plain, 0) == flags && GetU32(plain, 4) == stamp && GetU32(plain, 8) == size
             && GetU32(plain, 12) == last
    requires size == |plain| - HEADER_LEN <= cap && flags / 0x1000_0000 % 2 == 0
    ensures ParsePlain(plain, cap).Some?
    ensures var p := ParsePlain(plain, cap).value;
            && p.fields.mode == flags / 0x100_0000 % 0x10 && p.fields.streamType == flags % 0x1_0000
            && p.fields.scene == last / 0x1_0000 && p.fields.stamp == stamp && p.data == plain[HEADER_LEN..]
  {
    hide GetU32;
  }

  lemma PlainReads(p: Parsed, top: nat, skip: byte, low: u16)
    requires p.fields.mode < 0x10 && top < 8 && |p.data| < MOD
    ensures var s := Plain(p, top, skip, low);
            && |s| == HEADER_LEN + |p.data| && s[HEADER_LEN..] == p.data
            && GetU32(s, 0) == top * 0x2000_0000 + p.fields.mode * 0x100_0000 + skip * 0x1_0000 + p.fields.streamType
            && GetU32(s, 4) == p.fields.stamp && GetU32(s, 8) == |p.data|
            && GetU32(s, 12) == (p.fields.scene as int) * 0x1_0000 + low
  {
    hide PutU32, GetU32;
    var s := Plain(p, top, skip, low);
    var word: u32 := top * 0x2000_0000 + p.fields.mode * 0x100_0000 + skip * 0x1_0000 + p.fields.streamType;
    var last: u32 := (p.fields.scene as int) * 0x1_0000 + low;
    var rest := PutU32(p.fields.stamp) + PutU32(|p.data|) + PutU32(last) + p.data;
    assert s == PutU32(word) + rest;
    assert s[0..4] == PutU32(word) && s[4..8] == PutU32(p.fields.stamp);
    assert s[8..12] == PutU32(|p.data|) && s[12..16] == PutU32(last);
    GetPutU32(s, 0, word);
    GetPutU32(s, 4, p.fields.stamp);
    GetPutU32(s, 8, |p.data|);
    GetPutU32(s, 12, last);
  }

  lemma ParsedWhenMeant(plain: seq<byte>, cap: nat, p: Parsed)
    requires HEADER_LEN <= |plain| && Means(plain, cap, p)
    ensures ParsePlain(plain, cap) == Some(p)
  {
    var top: nat, skip: byte, low: u16 :| top < 8 && plain == Plain(p, top, skip, low);
    FlagParts(top, p.fields.mode, skip, p.fields.streamType);
    PlainReads(p, top, skip, low);
    hide GetU32, Plain, Means, ParsePlain;
    ReadPlain(plain, cap, GetU32(plain, 0), GetU32(plain, 4), GetU32(plain, 8), GetU32(plain, 12));
    SceneOf(p.fields.scene, low);
  }

  lemma SceneOf(scene: u16, low: u16)
    ensures ((scene as int) * 0x1_0000 + low) / 0x1_0000 == scene
  {
  }

  /** A message is a length prefix that is true, a nonce and a text that opens. */
  ghost predicate Envelope(g: Gcm, msg: seq<byte>, plain: seq<byte>)
    requires GcmOk(g)
  {
    exists nonce, text | |nonce| == NONCE_LEN && 4 + NONCE_LEN + |text| < MOD ::
      g.open(nonce, text) == Some(plain) && msg == PutU32(NONCE_LEN + |text|) + nonce + text
  }

  lemma EnvelopeOf(g: Gcm, msg: seq<byte>, cap: nat, p: Parsed) returns (plain: seq<byte>)
    requires GcmOk(g) && Parse(g, msg, cap) == Some(p)
    ensures Envelope(g, msg, plain) && HEADER_LEN <= |plain| && ParsePlain(plain, cap) == Some(p)
  {
    hide ParsePlain, GetU32, PutU32;
    var nonce, text := msg[4..4 + NONCE_LEN], msg[4 + NONCE_LEN..];
    plain := g.open(nonce, text).value;
    assert GetU32(msg, 0) == NONCE_LEN + |text|;
    ThreeParts(msg);
  }

  lemma ThreeParts(msg: seq<byte>)
    requires |msg| >= 4 + NONCE_LEN
    ensures msg == PutU32(GetU32(msg, 0)) + msg[4..4 + NONCE_LEN] + msg[4 + NONCE_LEN..]
  {
    PutGetU32(msg, 0);
    hide GetU32, PutU32;
  }

  /**
   * Any bytes whatsoever: they are parsed to a meaning exactly when they are an honest envelope of a plaintext
   * of at least a header with that meaning.
   */
  lemma {:induction false} ParseIff(g: Gcm, msg: seq<byte>, cap: nat, p: Parsed)
    requires GcmOk(g)
    ensures Parse(g, msg, cap) == Some(p)
            <==> exists plain :: Envelope(g, msg, plain) && HEADER_LEN <= |plain| && Means(plain, cap, p)
  {
    hide Means, Parse, Envelope, ParsePlain;
    if Parse(g, msg, cap) == Some(p) {
      var plain := EnvelopeOf(g, msg, cap, p);
      ParsePlainIff(plain, cap, p);
    }
    forall plain | Envelope(g, msg, plain) && HEADER_LEN <= |plain| && Means(plain, cap, p)
      ensures Parse(g, msg, cap) == Some(p)
    {
      ParseEnvelope(g, msg, plain, cap);
      ParsePlainIff(plain, cap, p);
    }
  }

  lemma ParseEnvelope(g: Gcm, msg: seq<byte>, plain: seq<byte>, cap: nat)
    requires GcmOk(g) && Envelope(g, msg, plain) && HEADER_LEN <= |plain|
    ensures Parse(g, msg, cap) == ParsePlain(plain, cap)
  {
    hide ParsePlain, PutU32, GetU32;
    var nonce, text :| |nonce| == NONCE_LEN && 4 + NONCE_LEN + |text| < MOD
                       && g.open(nonce, text) == Some(plain) && msg == PutU32(NONCE_LEN + |text|) + nonce + text;
    assert |text| == |plain| + TAG_LEN;
    assert msg[0..4] == PutU32(NONCE_LEN + |text|);
    GetPutU32(msg, 0, NONCE_LEN + |text|);
    assert msg[4..4 + NONCE_LEN] == nonce && msg[4 + NONCE_LEN..] == text;
  }
}
