/** What the builder writes, the parser reads back. */
module DmsdpRoundTrip {
  import opened Bytes
  import opened DmsdpText
  import opened Dmsdp

  // ---------------------------------------------------------------- what is to be expected

  /** Codec and KaRetry leave no trace, both Transport bits become one. */
  function Mapped(d: set<nat>): set<nat> {
    (d - {CODEC, KA_RETRY, TRANSPORT_CLIENT, TRANSPORT_BOTH})
    + (if TRANSPORT_CLIENT in d || TRANSPORT_BOTH in d then {TRANSPORT} else {})
  }

  function Num(on: bool, v: int): int {
    if on then v else 0
  }

  function Str(on: bool, s: Option<string>): Option<string> {
    if on then s else None
  }

  /** The parsed form of `m` when the lines of the bits in `d1` and `d2` have been read. */
  function Expect(m: Msg, d1: set<nat>, d2: set<nat>): Parsed {
    Parsed(m.kind, Mapped(d1), d2, 0, false, Num(CSEQ in d1, m.cseq),
           0, Num(CRYPTO_VER in d1, m.cryptoVer), Num(CRYPTO_SWITCH in d1, m.cryptoSwitch),
           Str(CRYPTO_ALG in d1, m.cryptoAlg),
           Num(CRYPTO_ABILITY in d1, m.cryptoAbility), Num(UDP_KA in d1, m.udpKa), 0, 0, Num(FILLP in d1, m.fillp),
           Num(TCP in d1, m.tcp), Str(SERVICE_ID in d1, m.serviceId), Num(SERVICE_TYPE in d1, m.serviceType),
           Num(DATA_SESSION in d1, m.dataSession),
           Num(TRANSPORT_CLIENT in d1 || TRANSPORT_BOTH in d1, m.clientLo),
           Num(TRANSPORT_CLIENT in d1 || TRANSPORT_BOTH in d1, m.clientHi),
           Num(TRANSPORT_BOTH in d1, m.serverLo), Num(TRANSPORT_BOTH in d1, m.serverHi), 0, 0, 0, None, None, None, 0,
           Num(BACKUP in d2, m.backup % 256), 0, Num(SIMPLE in d2, m.simple % 256), Num(POLY in d2, m.poly % 256))
  }

  /** The bits the builder has a line for. */
  const WRITTEN: set<nat> := {CSEQ, SERVICE_ID, SERVICE_TYPE, DATA_SESSION, CRYPTO_VER, CRYPTO_SWITCH, CRYPTO_ABILITY,
                              CRYPTO_ALG, FILLP, CODEC, TCP, UDP_KA, KA_RETRY, TRANSPORT_CLIENT, TRANSPORT_BOTH}
  const WRITTEN2: set<nat> := {BACKUP, SIMPLE, POLY}

  function Expected(m: Msg): Parsed {
    Expect(m, m.flags1 * WRITTEN, m.flags2 * WRITTEN2)
  }

  function Put(d: set<nat>, b: nat, on: bool): set<nat> {
    if on then d + {b} else d
  }

  // ---------------------------------------------------------------- keywords

  lemma {:induction false} KeywordIs(key: string, i: nat, k: nat)
    requires i <= k < 30 && Matches(key, Name(k)) && forall j | i <= j < k :: !Matches(key, Name(j))
    ensures Keyword(key, i) == k
    decreases k - i
  {
    hide Matches;
    if i < k {
      KeywordIs(key, i + 1, k);
    }
  }

  /** Length and characters 0, 2 and 8 (a space beyond the end) tell the names apart. */
  datatype Sig = Sig(len: nat, c0: char, c2: char, c8: char)

  function SigOf(k: nat): Sig
    requires k < 30
  {
    match k
    case 0 => Sig(4, 'C', 'e', ' ')
    case 1 => Sig(14, 'C', 'n', 'L')
    case 2 => Sig(12, 'C', 'n', 'T')
    case 3 => Sig(9, 'S', 'r', 'D')
    case 4 => Sig(11, 'S', 'r', 'y')
    case 5 => Sig(13, 'D', 't', 'i')
    case 6 => Sig(9, 'C', 'y', 'r')
    case 7 => Sig(12, 'C', 'y', 'i')
    case 8 => Sig(9, 'C', 'y', 'g')
    case 9 => Sig(13, 'C', 'y', 'i')
    case 10 => Sig(5, 'U', 'p', ' ')
    case 11 => Sig(9, 'U', 'p', 't')
    case 12 => Sig(5, 'F', 'l', ' ')
    case 13 => Sig(5, 'C', 'd', ' ')
    case 14 => Sig(3, 'T', 'P', ' ')
    case 15 => Sig(14, 'V', 'd', 'a')
    case 16 => Sig(14, 'A', 'd', 'a')
    case 17 => Sig(12, 'G', 's', 'e')
    case 18 => Sig(18, 'V', 'd', 'a')
    case 19 => Sig(9, 'T', 'a', 't')
    case 20 => Sig(14, 'T', 'm', 'e')
    case 21 => Sig(10, 'T', 'm', 'g')
    case 22 => Sig(9, 'T', 'm', 'w')
    case 23 => Sig(13, 'D', 'v', 'a')
    case 24 => Sig(7, 'K', 'R', ' ')
    case 25 => Sig(10, 'M', 'l', 'n')
    case 26 => Sig(6, 'B', 'c', ' ')
    case 27 => Sig(9, 'R', 'p', 'e')
    case 28 => Sig(6, 'S', 'm', ' ')
    case _ => Sig(11, 'P', 'l', 'a')
  }

  lemma SigFits(k: nat)
    requires k < 30
    ensures var n := Name(k); var s := SigOf(k);
            && |n| == s.len >= 3 && n[0] == s.c0 && n[2] == s.c2 && (if |n| > 8 then n[8] == s.c8 else s.c8 == ' ')
  {
  }

  lemma SigApart(j: nat, k: nat)
    requires j < k < 30
    ensures var a := SigOf(k); var b := SigOf(j);
            a.len > b.len || a.c0 != b.c0 || a.c2 != b.c2 || (a.len > 8 && a.c8 != b.c8)
  {
  }

  lemma Distinct(j: nat, k: nat)
    requires j < k < 30
    ensures !(Name(k) <= Name(j))
  {
    hide Name, SigOf;
    SigFits(j);
    SigFits(k);
    SigApart(j, k);
  }

  /** No control character, space or colon. */
  predicate Plain(s: string) {
    forall i | 0 <= i < |s| :: s[i] >= '-' && s[i] != ':'
  }

  lemma NamePlain(k: nat)
    requires k < 30
    ensures Plain(Name(k))
  {
    hide Name, Plain;
    if k < 5 {
      NamePlain0(k);
    } else if k < 10 {
      NamePlain5(k);
    } else if k < 15 {
      NamePlain10(k);
    } else if k < 20 {
      NamePlain15(k);
    } else if k < 25 {
      NamePlain20(k);
    } else {
      NamePlain25(k);
    }
  }

  lemma NamePlain0(k: nat)
    requires 0 <= k < 5
    ensures Plain(Name(k))
  {
  }

  lemma NamePlain5(k: nat)
    requires 5 <= k < 10
    ensures Plain(Name(k))
  {
  }

  lemma NamePlain10(k: nat)
    requires 10 <= k < 15
    ensures Plain(Name(k))
  {
  }

  lemma NamePlain15(k: nat)
    requires 15 <= k < 20
    ensures Plain(Name(k))
  {
  }

  lemma NamePlain20(k: nat)
    requires 20 <= k < 25
    ensures Plain(Name(k))
  {
  }

  lemma NamePlain25(k: nat)
    requires 25 <= k < 30
    ensures Plain(Name(k))
  {
  }

  /** No name in the table is hidden behind an earlier one, although keys may be abbreviated. */
  lemma {:induction false} EachNameFindsItself(k: nat)
    requires k < 30
    ensures GetKeyword(Name(k)) == k && Name(k) != [] && ':' !in Name(k) && '\r' !in Name(k)
  {
    hide Name, CString;
    var key := Name(k);
    SigFits(k);
    NamePlain(k);
    CStringId(key);
    assert key[0] != ' ' && key[|key| - 1] != ' ';
    assert SkipSpaces(key) == key && SkipBack(key) == key;
    forall j | 0 <= j < k
      ensures !Matches(key, Name(j))
    {
      Distinct(j, k);
    }
    KeywordIs(key, 0, k);
  }

  // ---------------------------------------------------------------- single lines

  lemma IntLine(k: nat, v: nat, out: Parsed)
    requires k < 30 && !IsString(k) && k != 13 && k != 24 && v < WORD
    ensures AnalyzeLine(Line(Name(k), Dec(v)), out)
            == Fine(PutInteger(k, v, out.(flags1 := out.flags1 + Flag1(k), flags2 := out.flags2 + Flag2(k))))
  {
    hide PutInteger, AnalyzeLine, GetKeyword, ParseInteger;
    EachNameFindsItself(k);
    LineEffect(Name(k), Dec(v), k, out);
    ParseDec(v);
  }

  /** Codec and KaRetry: the value is ignored and the bit cleared. */
  lemma SoftLine(k: nat, v: nat, out: Parsed)
    requires k == 13 || k == 24
    ensures AnalyzeLine(Line(Name(k), Dec(v)), out) == Fine(out.(flags1 := out.flags1 - Flag1(k)))
  {
    hide AnalyzeLine, GetKeyword;
    EachNameFindsItself(k);
    LineEffect(Name(k), Dec(v), k, out);
    assert out.flags1 + Flag1(k) - Flag1(k) == out.flags1 - Flag1(k);
    assert out.flags2 + {} - {} == out.flags2;
  }

  lemma StringLine(k: nat, s: string, out: Parsed)
    requires k in {3, 8} && Clean(s)
    ensures var flagged := out.(flags1 := out.flags1 + Flag1(k));
            AnalyzeLine(Line(Name(k), s), out)
            == Fine(if k == 3 then flagged.(serviceId := Some(s)) else flagged.(cryptoAlg := Some(s)))
  {
    hide AnalyzeLine, GetKeyword;
    EachNameFindsItself(k);
    LineEffect(Name(k), s, k, out);
    assert (" " + s)[1..] == s;
    assert SkipSpaces(" " + s) == SkipSpaces(s) == s;
    CStringId(s);
    assert out.flags2 + {} == out.flags2;
  }

  // ---------------------------------------------------------------- transport

  lemma SegmentIs(name: string, lo: u32, hi: u32, rest: string, other: string)
    requires |name| == 11 && ';' !in name && (rest == [] || rest[0] == ';') && |other| == 11 && other != name
    ensures var val := Ports(name, lo, hi) + rest;
            && FindAttr(val, name) == Found(Range(lo, hi))
            && FindAttr(val, other) == if rest == [] then Absent else FindAttr(rest[1..], other)
  {
    hide Dec, ParseRange;
    var p := Ports(name, lo, hi);
    var val := p + rest;
    RangeRoundTrip(lo, hi);
    assert ';' !in p;
    if rest == [] {
      assert val == p;
      NoneThere(p, ';');
    } else {
      assert val == p + [';'] + rest[1..];
      IndexAfter(p, ';', rest[1..]);
    }
    assert val[..|p|] == p;
    assert p[..11] == name && p[11] == '=' && p[12..] == Dec(lo) + "-" + Dec(hi);
    if rest != [] {
      assert val[|p| + 1..] == rest[1..];
    }
  }

  lemma NoneThere(s: string, c: char)
    requires c !in s
    ensures IndexOf(s, c) == |s|
  {
  }

  lemma SkipSegment(seg: string, rest: string, name: string)
    requires ';' !in seg && |seg| < 12
    ensures FindAttr(seg + ";" + rest, name) == FindAttr(rest, name)
  {
    var val := seg + ";" + rest;
    assert val == seg + [';'] + rest;
    IndexAfter(seg, ';', rest);
    assert val[|seg| + 1..] == rest;
  }

  lemma TransportPrefix(rest: string, name: string)
    ensures FindAttr("RTP/AVP/UDP;unicast;" + rest, name) == FindAttr(rest, name)
    ensures var val := "RTP/AVP/UDP;unicast;" + rest; |val| >= 20 && val[..20] == "RTP/AVP/UDP;unicast;"
  {
    assert "RTP/AVP/UDP;unicast;" + rest == "RTP/AVP/UDP" + ";" + ("unicast" + ";" + rest);
    SkipSegment("RTP/AVP/UDP", "unicast" + ";" + rest, name);
    SkipSegment("unicast", rest, name);
  }

  /** Two ports attributes, of which the second may be missing. */
  lemma TransportAs(rest: string, out: Parsed, client: Range, server: Attr)
    requires FindAttr(rest, "client_port") == Found(client) && FindAttr(rest, "server_port") == server
             && !server.Malformed?
    ensures var mid := out.(clientLo := client.lo, clientHi := client.hi);
            ParseTransport("RTP/AVP/UDP;unicast;" + rest, out)
            == if server.Found? then mid.(serverLo := server.range.lo, serverHi := server.range.hi) else mid
  {
    hide FindAttr;
    TransportPrefix(rest, "client_port");
    TransportPrefix(rest, "server_port");
  }

  lemma AttrNames()
    ensures |"client_port"| == |"server_port"| == 11 && "client_port" != "server_port"
    ensures ';' !in "client_port" && ';' !in "server_port"
  {
    assert "server_port"[0] != "client_port"[0];
  }

  lemma {:induction false} ClientTransport(m: Msg, out: Parsed)
    ensures ParseTransport(TransportClient(m), out) == out.(clientLo := m.clientLo, clientHi := m.clientHi)
  {
    hide FindAttr, Ports, ParseTransport;
    var p := Ports("client_port", m.clientLo, m.clientHi);
    assert p + [] == p;
    AttrNames();
    SegmentIs("client_port", m.clientLo, m.clientHi, [], "server_port");
    TransportAs(p, out, Range(m.clientLo, m.clientHi), Absent);
  }

  lemma {:induction false} BothTransport(m: Msg, out: Parsed)
    ensures ParseTransport(TransportBoth(m), out)
            == out.(clientLo := m.clientLo, clientHi := m.clientHi, serverLo := m.serverLo, serverHi := m.serverHi)
  {
    hide FindAttr, Ports, ParseTransport;
    var p := Ports("client_port", m.clientLo, m.clientHi);
    var q := Ports("server_port", m.serverLo, m.serverHi);
    var tail := ";" + q;
    assert tail[1..] == q && q + [] == q;
    assert TransportBoth(m) == "RTP/AVP/UDP;unicast;" + (p + tail);
    AttrNames();
    SegmentIs("client_port", m.clientLo, m.clientHi, tail, "server_port");
    SegmentIs("server_port", m.serverLo, m.serverHi, [], "client_port");
    TransportAs(p + tail, out, Range(m.clientLo, m.clientHi), Found(Range(m.serverLo, m.serverHi)));
  }

  lemma TransportLine(value: string, out: Parsed)
    requires value != [] && value[0] != ' '
    ensures AnalyzeLine(Line("Transport", value), out)
            == Fine(ParseTransport(value, out.(flags1 := out.flags1 + {TRANSPORT})))
  {
    hide AnalyzeLine, GetKeyword, ParseTransport;
    EachNameFindsItself(19);
    assert Name(19) == "Transport";
    LineEffect("Transport", value, 19, out);
    assert (" " + value)[1..] == value;
    assert SkipSpaces(" " + value) == SkipSpaces(value) == value;
    assert out.flags2 + {} == out.flags2;
  }

  // ---------------------------------------------------------------- the lines of the builder

  lemma MapPut(d: set<nat>, b: nat)
    ensures b !in {CODEC, KA_RETRY, TRANSPORT_CLIENT, TRANSPORT_BOTH} ==> Mapped(d + {b}) == Mapped(d) + {b}
    ensures b in {CODEC, KA_RETRY} ==> Mapped(d + {b}) == Mapped(d) == Mapped(d) - {b}
    ensures b in {TRANSPORT_CLIENT, TRANSPORT_BOTH} ==> Mapped(d + {b}) == Mapped(d) + {TRANSPORT}
  {
  }

  // The integer lines of the first flag word, each setting its own field and bit.

  lemma ReadCseq(m: Msg, d1: set<nat>, d2: set<nat>)
    ensures AnalyzeLine(Line("CSeq", Dec(m.cseq)), Expect(m, d1, d2)) == Fine(Expect(m, d1 + {CSEQ}, d2))
  {
    hide AnalyzeLine, Dec, Mapped;
    IntLine(0, m.cseq, Expect(m, d1, d2));
    MapPut(d1, CSEQ);
    assert d2 + {} == d2;
  }

  lemma ReadServiceType(m: Msg, d1: set<nat>, d2: set<nat>)
    ensures AnalyzeLine(Line("ServiceType", Dec(m.serviceType)), Expect(m, d1, d2))
            == Fine(Expect(m, d1 + {SERVICE_TYPE}, d2))
  {
    hide AnalyzeLine, Dec, Mapped;
    IntLine(4, m.serviceType, Expect(m, d1, d2));
    MapPut(d1, SERVICE_TYPE);
    assert d2 + {} == d2;
  }

  lemma ReadDataSession(m: Msg, d1: set<nat>, d2: set<nat>)
    ensures AnalyzeLine(Line("DataSessionID", Dec(m.dataSession)), Expect(m, d1, d2))
            == Fine(Expect(m, d1 + {DATA_SESSION}, d2))
  {
    hide AnalyzeLine, Dec, Mapped;
    IntLine(5, m.dataSession, Expect(m, d1, d2));
    MapPut(d1, DATA_SESSION);
    assert d2 + {} == d2;
  }

  lemma ReadCryptoVer(m: Msg, d1: set<nat>, d2: set<nat>)
    ensures AnalyzeLine(Line("CryptoVer", Dec(m.cryptoVer)), Expect(m, d1, d2))
            == Fine(Expect(m, d1 + {CRYPTO_VER}, d2))
  {
    hide AnalyzeLine, Dec, Mapped;
    IntLine(6, m.cryptoVer, Expect(m, d1, d2));
    MapPut(d1, CRYPTO_VER);
    assert d2 + {} == d2;
  }

  lemma ReadCryptoSwitch(m: Msg, d1: set<nat>, d2: set<nat>)
    ensures AnalyzeLine(Line("CryptoSwitch", Dec(m.cryptoSwitch)), Expect(m, d1, d2))
            == Fine(Expect(m, d1 + {CRYPTO_SWITCH}, d2))
  {
    hide AnalyzeLine, Dec, Mapped;
    IntLine(7, m.cryptoSwitch, Expect(m, d1, d2));
    MapPut(d1, CRYPTO_SWITCH);
    assert d2 + {} == d2;
  }

  lemma ReadCryptoAbility(m: Msg, d1: set<nat>, d2: set<nat>)
    ensures AnalyzeLine(Line("CryptoAbility", Dec(m.cryptoAbility)), Expect(m, d1, d2))
            == Fine(Expect(m, d1 + {CRYPTO_ABILITY}, d2))
  {
    hide AnalyzeLine, Dec, Mapped;
    IntLine(9, m.cryptoAbility, Expect(m, d1, d2));
    MapPut(d1, CRYPTO_ABILITY);
    assert d2 + {} == d2;
  }

  lemma ReadUdpKa(m: Msg, d1: set<nat>, d2: set<nat>)
    ensures AnalyzeLine(Line("UdpKA", Dec(m.udpKa)), Expect(m, d1, d2)) == Fine(Expect(m, d1 + {UDP_KA}, d2))
  {
    hide AnalyzeLine, Dec, Mapped;
    IntLine(10, m.udpKa, Expect(m, d1, d2));
    MapPut(d1, UDP_KA);
    assert d2 + {} == d2;
  }

  lemma ReadFillp(m: Msg, d1: set<nat>, d2: set<nat>)
    ensures AnalyzeLine(Line("Fillp", Dec(m.fillp)), Expect(m, d1, d2)) == Fine(Expect(m, d1 + {FILLP}, d2))
  {
    hide AnalyzeLine, Dec, Mapped;
    IntLine(12, m.fillp, Expect(m, d1, d2));
    MapPut(d1, FILLP);
    assert d2 + {} == d2;
  }

  lemma ReadTcp(m: Msg, d1: set<nat>, d2: set<nat>)
    ensures AnalyzeLine(Line("TCP", Dec(m.tcp)), Expect(m, d1, d2)) == Fine(Expect(m, d1 + {TCP}, d2))
  {
    hide AnalyzeLine, Dec, Mapped;
    IntLine(14, m.tcp, Expect(m, d1, d2));
    MapPut(d1, TCP);
    assert d2 + {} == d2;
  }

  /** Reading an integer line of the second flag word: one byte is kept. */
  lemma Read2(m: Msg, d1: set<nat>, d2: set<nat>, b: nat, k: nat, v: nat)
    requires (b, k, v) in {(BACKUP, 26, m.backup as nat), (SIMPLE, 28, m.simple as nat), (POLY, 29, m.poly as nat)}
    ensures AnalyzeLine(Line(Name(k), Dec(v)), Expect(m, d1, d2)) == Fine(Expect(m, d1, d2 + {b}))
  {
    hide AnalyzeLine, Name, Dec, Mapped;
    IntLine(k, v, Expect(m, d1, d2));
    assert Mapped(d1) + {} == Mapped(d1);
  }

  lemma ReadSoft(m: Msg, d1: set<nat>, d2: set<nat>, b: nat, k: nat, v: nat)
    requires (b, k) in {(CODEC, 13), (KA_RETRY, 24)}
    ensures AnalyzeLine(Line(Name(k), Dec(v)), Expect(m, d1, d2)) == Fine(Expect(m, d1 + {b}, d2))
  {
    hide AnalyzeLine, Name, Dec, Mapped;
    SoftLine(k, v, Expect(m, d1, d2));
    MapPut(d1, b);
  }

  lemma ReadServiceId(m: Msg, d1: set<nat>, d2: set<nat>)
    requires m.serviceId.Some? && Clean(m.serviceId.value)
    ensures AnalyzeLine(Line("ServiceID", Text(m.serviceId)), Expect(m, d1, d2))
            == Fine(Expect(m, d1 + {SERVICE_ID}, d2))
  {
    hide AnalyzeLine, Mapped, Clean;
    StringLine(3, m.serviceId.value, Expect(m, d1, d2));
    MapPut(d1, SERVICE_ID);
  }

  lemma ReadCryptoAlg(m: Msg, d1: set<nat>, d2: set<nat>)
    requires m.cryptoAlg.Some? && Clean(m.cryptoAlg.value)
    ensures AnalyzeLine(Line("CryptoAlg", Text(m.cryptoAlg)), Expect(m, d1, d2))
            == Fine(Expect(m, d1 + {CRYPTO_ALG}, d2))
  {
    hide AnalyzeLine, Mapped, Clean;
    StringLine(8, m.cryptoAlg.value, Expect(m, d1, d2));
    MapPut(d1, CRYPTO_ALG);
  }

  lemma ReadTransport(m: Msg, d1: set<nat>, d2: set<nat>, both: bool)
    requires TRANSPORT_BOTH !in d1
    ensures AnalyzeLine(Line("Transport", if both then TransportBoth(m) else TransportClient(m)), Expect(m, d1, d2))
            == Fine(Expect(m, d1 + {if both then TRANSPORT_BOTH else TRANSPORT_CLIENT}, d2))
  {
    hide AnalyzeLine, Mapped, ParseTransport;
    var value := if both then TransportBoth(m) else TransportClient(m);
    assert value[0] == 'R';
    TransportLine(value, Expect(m, d1, d2));
    var flagged := Expect(m, d1, d2).(flags1 := Mapped(d1) + {TRANSPORT});
    ClientTransport(m, flagged);
    BothTransport(m, flagged);
    MapPut(d1, TRANSPORT_CLIENT);
    MapPut(d1, TRANSPORT_BOTH);
  }

  // ---------------------------------------------------------------- all lines in order

  /** The strings a message may carry: what `%s` prints and the parser does not cut or strip. */
  ghost predicate Carries(m: Msg) {
    && (SERVICE_ID in m.flags1 && m.serviceId.Some? ==> Clean(m.serviceId.value) && !HasCrlf(m.serviceId.value))
    && (CRYPTO_ALG in m.flags1 && m.cryptoAlg.Some? ==> Clean(m.cryptoAlg.value) && !HasCrlf(m.cryptoAlg.value))
  }

  lemma {:induction false} AnalyzeAppend(a: seq<string>, b: seq<string>, out: Parsed, mid: Parsed)
    requires AnalyzeAll(a, out) == Fine(mid)
    ensures AnalyzeAll(a + b, out) == AnalyzeAll(b, mid)
    decreases |a|
  {
    hide AnalyzeLine;
    if a == [] {
      assert a + b == b;
    } else {
      assert (a + b)[1..] == a[1..] + b;
      AnalyzeAppend(a[1..], b, AnalyzeLine(a[0], out).out, mid);
    }
  }

  /** A last optional line. */
  lemma AnalyzeLast(on: bool, line: string, out: Parsed, next: Parsed)
    requires on ==> AnalyzeLine(line, out) == Fine(next)
    requires !on ==> next == out
    ensures AnalyzeAll(If(on, line), out) == Fine(next)
  {
    hide AnalyzeLine, If;
    AnalyzeIf(on, line, [], out, next);
    assert If(on, line) + [] == If(on, line);
  }

  function After1(m: Msg, d: set<nat>): set<nat> {
    Put(Put(Put(Put(d, CSEQ, CSEQ in m.flags1), SERVICE_ID, SERVICE_ID in m.flags1),
            SERVICE_TYPE, SERVICE_TYPE in m.flags1),
        DATA_SESSION, DATA_SESSION in m.flags1)
  }

  lemma Read1(m: Msg, d: set<nat>, e: set<nat>)
    requires Buildable(m) && Carries(m)
    ensures AnalyzeAll(Lines1(m), Expect(m, d, e)) == Fine(Expect(m, After1(m, d), e))
  {
    hide AnalyzeLine, AnalyzeAll, Line, If, Expect, Dec, HasCrlf, Clean;
    var d1 := Put(d, CSEQ, CSEQ in m.flags1);
    var d2 := Put(d1, SERVICE_ID, SERVICE_ID in m.flags1);
    var d3 := Put(d2, SERVICE_TYPE, SERVICE_TYPE in m.flags1);
    var l4 := If(DATA_SESSION in m.flags1, Line("DataSessionID", Dec(m.dataSession)));
    var l3 := If(SERVICE_TYPE in m.flags1, Line("ServiceType", Dec(m.serviceType))) + l4;
    var l2 := If(SERVICE_ID in m.flags1, Line("ServiceID", Text(m.serviceId))) + l3;
    ReadCseq(m, d, e);
    AnalyzeIf(CSEQ in m.flags1, Line("CSeq", Dec(m.cseq)), l2, Expect(m, d, e), Expect(m, d1, e));
    if SERVICE_ID in m.flags1 {
      ReadServiceId(m, d1, e);
    }
    AnalyzeIf(SERVICE_ID in m.flags1, Line("ServiceID", Text(m.serviceId)), l3, Expect(m, d1, e), Expect(m, d2, e));
    ReadServiceType(m, d2, e);
    AnalyzeIf(SERVICE_TYPE in m.flags1, Line("ServiceType", Dec(m.serviceType)), l4, Expect(m, d2, e),
              Expect(m, d3, e));
    ReadDataSession(m, d3, e);
    AnalyzeLast(DATA_SESSION in m.flags1, Line("DataSessionID", Dec(m.dataSession)), Expect(m, d3, e),
                Expect(m, After1(m, d), e));
  }

  function After2(m: Msg, d: set<nat>): set<nat> {
    Put(Put(Put(Put(d, CRYPTO_VER, CRYPTO_VER in m.flags1), CRYPTO_SWITCH, CRYPTO_SWITCH in m.flags1),
            CRYPTO_ABILITY, CRYPTO_ABILITY in m.flags1), CRYPTO_ALG, CRYPTO_ALG in m.flags1)
  }

  lemma Read2nd(m: Msg, d: set<nat>, e: set<nat>)
    requires Buildable(m) && Carries(m)
    ensures AnalyzeAll(Lines2(m), Expect(m, d, e)) == Fine(Expect(m, After2(m, d), e))
  {
    hide AnalyzeLine, AnalyzeAll, Line, If, Expect, Dec, HasCrlf, Clean;
    var d1 := Put(d, CRYPTO_VER, CRYPTO_VER in m.flags1);
    var d2 := Put(d1, CRYPTO_SWITCH, CRYPTO_SWITCH in m.flags1);
    var d3 := Put(d2, CRYPTO_ABILITY, CRYPTO_ABILITY in m.flags1);
    var l4 := If(CRYPTO_ALG in m.flags1, Line("CryptoAlg", Text(m.cryptoAlg)));
    var l3 := If(CRYPTO_ABILITY in m.flags1, Line("CryptoAbility", Dec(m.cryptoAbility))) + l4;
    var l2 := If(CRYPTO_SWITCH in m.flags1, Line("CryptoSwitch", Dec(m.cryptoSwitch))) + l3;
    ReadCryptoVer(m, d, e);
    AnalyzeIf(CRYPTO_VER in m.flags1, Line("CryptoVer", Dec(m.cryptoVer)), l2, Expect(m, d, e), Expect(m, d1, e));
    ReadCryptoSwitch(m, d1, e);
    AnalyzeIf(CRYPTO_SWITCH in m.flags1, Line("CryptoSwitch", Dec(m.cryptoSwitch)), l3, Expect(m, d1, e),
              Expect(m, d2, e));
    ReadCryptoAbility(m, d2, e);
    AnalyzeIf(CRYPTO_ABILITY in m.flags1, Line("CryptoAbility", Dec(m.cryptoAbility)), l4, Expect(m, d2, e),
              Expect(m, d3, e));
    if CRYPTO_ALG in m.flags1 {
      ReadCryptoAlg(m, d3, e);
    }
    AnalyzeLast(CRYPTO_ALG in m.flags1, Line("CryptoAlg", Text(m.cryptoAlg)), Expect(m, d3, e),
                Expect(m, After2(m, d), e));
  }

  function After3(m: Msg, d: set<nat>): set<nat> {
    Put(Put(Put(d, FILLP, FILLP in m.flags1), CODEC, CODEC in m.flags1), TCP, TCP in m.flags1)
  }

  function Bytes3(m: Msg, e: set<nat>): set<nat> {
    Put(Put(Put(e, BACKUP, BACKUP in m.flags2), SIMPLE, SIMPLE in m.flags2), POLY, POLY in m.flags2)
  }

  lemma Read3(m: Msg, d: set<nat>, e: set<nat>)
    ensures AnalyzeAll(Lines3(m), Expect(m, d, e)) == Fine(Expect(m, After3(m, d), Bytes3(m, e)))
  {
    hide AnalyzeLine, AnalyzeAll, Line, If, Expect, Dec;
    var d1 := Put(d, FILLP, FILLP in m.flags1);
    var d2 := Put(d1, CODEC, CODEC in m.flags1);
    var d3 := After3(m, d);
    var l4 := If(BACKUP in m.flags2, Line("Backup", Dec(m.backup)))
              + (If(SIMPLE in m.flags2, Line("Simple", Dec(m.simple)))
                 + If(POLY in m.flags2, Line("PolyPackage", Dec(m.poly))));
    var l3 := If(TCP in m.flags1, Line("TCP", Dec(m.tcp))) + l4;
    var l2 := If(CODEC in m.flags1, Line("Codec", Dec(m.codec))) + l3;
    ReadFillp(m, d, e);
    AnalyzeIf(FILLP in m.flags1, Line("Fillp", Dec(m.fillp)), l2, Expect(m, d, e), Expect(m, d1, e));
    ReadSoft(m, d1, e, CODEC, 13, m.codec);
    AnalyzeIf(CODEC in m.flags1, Line("Codec", Dec(m.codec)), l3, Expect(m, d1, e), Expect(m, d2, e));
    ReadTcp(m, d2, e);
    AnalyzeIf(TCP in m.flags1, Line("TCP", Dec(m.tcp)), l4, Expect(m, d2, e), Expect(m, d3, e));
    hide Bytes3;
    ReadBytes3(m, d3, e);
  }

  lemma ReadBytes3(m: Msg, d: set<nat>, e: set<nat>)
    ensures AnalyzeAll(If(BACKUP in m.flags2, Line("Backup", Dec(m.backup)))
                       + (If(SIMPLE in m.flags2, Line("Simple", Dec(m.simple)))
                          + If(POLY in m.flags2, Line("PolyPackage", Dec(m.poly)))), Expect(m, d, e))
            == Fine(Expect(m, d, Bytes3(m, e)))
  {
    hide AnalyzeLine, AnalyzeAll, Line, If, Expect, Dec;
    var e1 := Put(e, BACKUP, BACKUP in m.flags2);
    var e2 := Put(e1, SIMPLE, SIMPLE in m.flags2);
    var l6 := If(POLY in m.flags2, Line("PolyPackage", Dec(m.poly)));
    var l5 := If(SIMPLE in m.flags2, Line("Simple", Dec(m.simple))) + l6;
    Read2(m, d, e, BACKUP, 26, m.backup);
    AnalyzeIf(BACKUP in m.flags2, Line("Backup", Dec(m.backup)), l5, Expect(m, d, e), Expect(m, d, e1));
    Read2(m, d, e1, SIMPLE, 28, m.simple);
    AnalyzeIf(SIMPLE in m.flags2, Line("Simple", Dec(m.simple)), l6, Expect(m, d, e1), Expect(m, d, e2));
    Read2(m, d, e2, POLY, 29, m.poly);
    AnalyzeLast(POLY in m.flags2, Line("PolyPackage", Dec(m.poly)), Expect(m, d, e2), Expect(m, d, Bytes3(m, e)));
  }

  function After4(m: Msg, d: set<nat>): set<nat> {
    Put(Put(Put(Put(d, UDP_KA, UDP_KA in m.flags1), KA_RETRY, KA_RETRY in m.flags1),
            TRANSPORT_BOTH, TRANSPORT_BOTH in m.flags1),
        TRANSPORT_CLIENT, TRANSPORT_CLIENT in m.flags1 && TRANSPORT_BOTH !in m.flags1)
  }

  lemma Read4(m: Msg, d: set<nat>, e: set<nat>)
    requires TRANSPORT_BOTH !in d
    ensures AnalyzeAll(Lines4(m), Expect(m, d, e)) == Fine(Expect(m, After4(m, d), e))
  {
    hide AnalyzeLine, AnalyzeAll, Line, If, Expect, Dec, TransportBoth, TransportClient;
    var d1 := Put(d, UDP_KA, UDP_KA in m.flags1);
    var d2 := Put(d1, KA_RETRY, KA_RETRY in m.flags1);
    var d3 := Put(d2, TRANSPORT_BOTH, TRANSPORT_BOTH in m.flags1);
    var client := TRANSPORT_CLIENT in m.flags1 && TRANSPORT_BOTH !in m.flags1;
    var l4 := If(client, Line("Transport", TransportClient(m)));
    var l3 := If(TRANSPORT_BOTH in m.flags1, Line("Transport", TransportBoth(m))) + l4;
    var l2 := If(KA_RETRY in m.flags1, Line("KaRetry", Dec(m.kaRetry))) + l3;
    ReadUdpKa(m, d, e);
    AnalyzeIf(UDP_KA in m.flags1, Line("UdpKA", Dec(m.udpKa)), l2, Expect(m, d, e), Expect(m, d1, e));
    ReadSoft(m, d1, e, KA_RETRY, 24, m.kaRetry);
    AnalyzeIf(KA_RETRY in m.flags1, Line("KaRetry", Dec(m.kaRetry)), l3, Expect(m, d1, e), Expect(m, d2, e));
    ReadTransport(m, d2, e, true);
    AnalyzeIf(TRANSPORT_BOTH in m.flags1, Line("Transport", TransportBoth(m)), l4, Expect(m, d2, e), Expect(m, d3, e));
    if client {
      ReadTransport(m, d3, e, false);
    }
    AnalyzeLast(client, Line("Transport", TransportClient(m)), Expect(m, d3, e), Expect(m, After4(m, d), e));
  }

  /** All header lines of a message, read from the empty structure of its kind. */
  lemma {:induction false} ReadAll(m: Msg)
    requires Buildable(m) && Carries(m)
    ensures AnalyzeAll(Lines(m), EMPTY.(kind := m.kind)) == Fine(Expected(m))
  {
    hide AnalyzeAll, Lines1, Lines2, Lines3, Lines4, Buildable, Carries;
    var d1 := After1(m, {});
    var d2 := After2(m, d1);
    var d3 := After3(m, d2);
    var d4 := After4(m, d3);
    var e := Bytes3(m, {});
    SetsAgree(m);
    hide After1, After2, After3, After4, Bytes3, Expect, Expected;
    Read1(m, {}, {});
    AnalyzeAppend(Lines1(m), Lines2(m) + (Lines3(m) + Lines4(m)), Expect(m, {}, {}), Expect(m, d1, {}));
    Read2nd(m, d1, {});
    AnalyzeAppend(Lines2(m), Lines3(m) + Lines4(m), Expect(m, d1, {}), Expect(m, d2, {}));
    Read3(m, d2, {});
    AnalyzeAppend(Lines3(m), Lines4(m), Expect(m, d2, {}), Expect(m, d3, e));
    Read4(m, d3, e);
  }

  lemma After1Is(m: Msg, d: set<nat>)
    ensures After1(m, d) == d + m.flags1 * {CSEQ, SERVICE_ID, SERVICE_TYPE, DATA_SESSION}
  {
  }

  lemma After2Is(m: Msg, d: set<nat>)
    ensures After2(m, d) == d + m.flags1 * {CRYPTO_VER, CRYPTO_SWITCH, CRYPTO_ABILITY, CRYPTO_ALG}
  {
  }

  lemma After3Is(m: Msg, d: set<nat>)
    ensures After3(m, d) == d + m.flags1 * {FILLP, CODEC, TCP}
    ensures Bytes3(m, {}) == m.flags2 * WRITTEN2
  {
  }

  lemma After4Is(m: Msg, d: set<nat>)
    ensures After4(m, d) == d + m.flags1 * {UDP_KA, KA_RETRY, TRANSPORT_BOTH}
                            + (if TRANSPORT_BOTH in m.flags1 then {} else m.flags1 * {TRANSPORT_CLIENT})
  {
  }

  lemma SetsAgree(m: Msg)
    ensures var d3 := After3(m, After2(m, After1(m, {}))); var e := Bytes3(m, {});
            && TRANSPORT_BOTH !in d3 && Expect(m, After4(m, d3), e) == Expected(m)
            && Expect(m, {}, {}) == EMPTY.(kind := m.kind)
  {
    hide After1, After2, After3, After4, Bytes3, Mapped;
    After1Is(m, {});
    After2Is(m, After1(m, {}));
    After3Is(m, After2(m, After1(m, {})));
    var d3 := After3(m, After2(m, After1(m, {})));
    After4Is(m, d3);
    var all := m.flags1 * WRITTEN;
    SplitWritten(m.flags1);
    SameMapped(all);
    var d4 := After4(m, d3);
    assert d4 == if TRANSPORT_BOTH in m.flags1 then all - {TRANSPORT_CLIENT} else all;
    assert Mapped({}) == {} by {
      NothingMapped();
    }
  }

  /** The bits written, group by group. */
  lemma SplitWritten(f: set<nat>)
    ensures f * WRITTEN
            == f * {CSEQ, SERVICE_ID, SERVICE_TYPE, DATA_SESSION}
               + f * {CRYPTO_VER, CRYPTO_SWITCH, CRYPTO_ABILITY, CRYPTO_ALG}
               + f * {FILLP, CODEC, TCP} + f * {UDP_KA, KA_RETRY, TRANSPORT_BOTH} + f * {TRANSPORT_CLIENT}
  {
  }

  lemma SameMapped(d: set<nat>)
    ensures TRANSPORT_BOTH in d ==> Mapped(d - {TRANSPORT_CLIENT}) == Mapped(d)
  {
  }

  lemma NothingMapped()
    ensures Mapped({}) == {}
  {
  }

  // ---------------------------------------------------------------- the text

  /** A line that will be found whole. */
  ghost predicate Whole(line: string) {
    line != [] && !HasCrlf(line)
  }

  ghost predicate AllWhole(lines: seq<string>) {
    forall i | 0 <= i < |lines| :: Whole(lines[i])
  }

  lemma LineWhole(k: nat, value: string)
    requires k < 30 && !HasCrlf(value)
    ensures Whole(Line(Name(k), value))
  {
    hide Name;
    NamePlain(k);
    var key := Name(k);
    var line := Line(key, value);
    forall i: nat
      ensures !CrlfAt(line, i)
    {
      if i + 1 < |line| && i >= |key| + 2 {
        assert line[i] == value[i - |key| - 2] && line[i + 1] == value[i - |key| - 1];
        assert !CrlfAt(value, i - |key| - 2);
      }
    }
  }

  lemma DecWhole(k: nat, v: nat)
    requires k < 30
    ensures Whole(Line(Name(k), Dec(v)))
  {
    hide Name, Dec, Whole;
    DecRoundTrip(v);
    NoNul(Dec(v));
    NoCr(Dec(v));
    LineWhole(k, Dec(v));
  }

  lemma NoCr(s: string)
    requires '\r' !in s
    ensures !HasCrlf(s)
  {
  }

  lemma WholeAppend(a: seq<string>, b: seq<string>)
    requires AllWhole(a) && AllWhole(b)
    ensures AllWhole(a + b)
  {
    hide Whole;
  }

  lemma WholeIf(on: bool, line: string)
    requires on ==> Whole(line)
    ensures AllWhole(If(on, line))
  {
    hide Whole;
  }

  lemma Whole1(m: Msg)
    requires Buildable(m) && Carries(m)
    ensures AllWhole(Lines1(m))
  {
    hide Line, Dec, Whole, AllWhole, If, HasCrlf, Clean;
    var l1 := If(CSEQ in m.flags1, Line("CSeq", Dec(m.cseq)));
    var l2 := If(SERVICE_ID in m.flags1, Line("ServiceID", Text(m.serviceId)));
    var l3 := If(SERVICE_TYPE in m.flags1, Line("ServiceType", Dec(m.serviceType)));
    var l4 := If(DATA_SESSION in m.flags1, Line("DataSessionID", Dec(m.dataSession)));
    DecWhole(0, m.cseq);
    WholeIf(CSEQ in m.flags1, Line("CSeq", Dec(m.cseq)));
    if SERVICE_ID in m.flags1 {
      LineWhole(3, Text(m.serviceId));
    }
    WholeIf(SERVICE_ID in m.flags1, Line("ServiceID", Text(m.serviceId)));
    DecWhole(4, m.serviceType);
    WholeIf(SERVICE_TYPE in m.flags1, Line("ServiceType", Dec(m.serviceType)));
    DecWhole(5, m.dataSession);
    WholeIf(DATA_SESSION in m.flags1, Line("DataSessionID", Dec(m.dataSession)));
    WholeAppend(l3, l4);
    WholeAppend(l2, l3 + l4);
    WholeAppend(l1, l2 + (l3 + l4));
  }

  lemma Whole2(m: Msg)
    requires Buildable(m) && Carries(m)
    ensures AllWhole(Lines2(m))
  {
    hide Line, Dec, Whole, AllWhole, If, HasCrlf, Clean;
    var l1 := If(CRYPTO_VER in m.flags1, Line("CryptoVer", Dec(m.cryptoVer)));
    var l2 := If(CRYPTO_SWITCH in m.flags1, Line("CryptoSwitch", Dec(m.cryptoSwitch)));
    var l3 := If(CRYPTO_ABILITY in m.flags1, Line("CryptoAbility", Dec(m.cryptoAbility)));
    var l4 := If(CRYPTO_ALG in m.flags1, Line("CryptoAlg", Text(m.cryptoAlg)));
    DecWhole(6, m.cryptoVer);
    WholeIf(CRYPTO_VER in m.flags1, Line("CryptoVer", Dec(m.cryptoVer)));
    DecWhole(7, m.cryptoSwitch);
    WholeIf(CRYPTO_SWITCH in m.flags1, Line("CryptoSwitch", Dec(m.cryptoSwitch)));
    DecWhole(9, m.cryptoAbility);
    WholeIf(CRYPTO_ABILITY in m.flags1, Line("CryptoAbility", Dec(m.cryptoAbility)));
    if CRYPTO_ALG in m.flags1 {
      LineWhole(8, Text(m.cryptoAlg));
    }
    WholeIf(CRYPTO_ALG in m.flags1, Line("CryptoAlg", Text(m.cryptoAlg)));
    WholeAppend(l3, l4);
    WholeAppend(l2, l3 + l4);
    WholeAppend(l1, l2 + (l3 + l4));
  }

  lemma Whole3(m: Msg)
    ensures AllWhole(Lines3(m))
  {
    hide Line, Dec, Whole, AllWhole, If;
    var l1 := If(FILLP in m.flags1, Line("Fillp", Dec(m.fillp)));
    var l2 := If(CODEC in m.flags1, Line("Codec", Dec(m.codec)));
    var l3 := If(TCP in m.flags1, Line("TCP", Dec(m.tcp)));
    var l4 := If(BACKUP in m.flags2, Line("Backup", Dec(m.backup)));
    var l5 := If(SIMPLE in m.flags2, Line("Simple", Dec(m.simple)));
    var l6 := If(POLY in m.flags2, Line("PolyPackage", Dec(m.poly)));
    DecWhole(12, m.fillp);
    WholeIf(FILLP in m.flags1, Line("Fillp", Dec(m.fillp)));
    DecWhole(13, m.codec);
    WholeIf(CODEC in m.flags1, Line("Codec", Dec(m.codec)));
    DecWhole(14, m.tcp);
    WholeIf(TCP in m.flags1, Line("TCP", Dec(m.tcp)));
    DecWhole(26, m.backup);
    WholeIf(BACKUP in m.flags2, Line("Backup", Dec(m.backup)));
    DecWhole(28, m.simple);
    WholeIf(SIMPLE in m.flags2, Line("Simple", Dec(m.simple)));
    DecWhole(29, m.poly);
    WholeIf(POLY in m.flags2, Line("PolyPackage", Dec(m.poly)));
    WholeAppend(l5, l6);
    WholeAppend(l4, l5 + l6);
    WholeAppend(l3, l4 + (l5 + l6));
    WholeAppend(l2, l3 + (l4 + (l5 + l6)));
    WholeAppend(l1, l2 + (l3 + (l4 + (l5 + l6))));
  }

  lemma PortsPlain(name: string, lo: u32, hi: u32)
    requires '\r' !in name
    ensures '\r' !in Ports(name, lo, hi)
  {
    hide Dec;
    DecRoundTrip(lo);
    DecRoundTrip(hi);
    NoNul(Dec(lo));
    NoNul(Dec(hi));
  }

  lemma TransportPlain(m: Msg)
    ensures '\r' !in TransportClient(m) && '\r' !in TransportBoth(m)
  {
    hide Ports;
    PortsPlain("client_port", m.clientLo, m.clientHi);
    PortsPlain("server_port", m.serverLo, m.serverHi);
  }

  lemma Whole4(m: Msg)
    ensures AllWhole(Lines4(m))
  {
    hide Line, Dec, Whole, AllWhole, If, HasCrlf, TransportBoth, TransportClient;
    var client := TRANSPORT_CLIENT in m.flags1 && TRANSPORT_BOTH !in m.flags1;
    var l1 := If(UDP_KA in m.flags1, Line("UdpKA", Dec(m.udpKa)));
    var l2 := If(KA_RETRY in m.flags1, Line("KaRetry", Dec(m.kaRetry)));
    var l3 := If(TRANSPORT_BOTH in m.flags1, Line("Transport", TransportBoth(m)));
    var l4 := If(client, Line("Transport", TransportClient(m)));
    DecWhole(10, m.udpKa);
    WholeIf(UDP_KA in m.flags1, Line("UdpKA", Dec(m.udpKa)));
    DecWhole(24, m.kaRetry);
    WholeIf(KA_RETRY in m.flags1, Line("KaRetry", Dec(m.kaRetry)));
    TransportPlain(m);
    NoCr(TransportBoth(m));
    NoCr(TransportClient(m));
    LineWhole(19, TransportBoth(m));
    LineWhole(19, TransportClient(m));
    WholeIf(TRANSPORT_BOTH in m.flags1, Line("Transport", TransportBoth(m)));
    WholeIf(client, Line("Transport", TransportClient(m)));
    WholeAppend(l3, l4);
    WholeAppend(l2, l3 + l4);
    WholeAppend(l1, l2 + (l3 + l4));
  }

  lemma LinesWhole(m: Msg)
    requires Buildable(m) && Carries(m)
    ensures AllWhole(Lines(m))
  {
    hide AllWhole, Lines1, Lines2, Lines3, Lines4, Buildable, Carries;
    Whole1(m);
    Whole2(m);
    Whole3(m);
    Whole4(m);
    WholeAppend(Lines3(m), Lines4(m));
    WholeAppend(Lines2(m), Lines3(m) + Lines4(m));
    WholeAppend(Lines1(m), Lines2(m) + (Lines3(m) + Lines4(m)));
  }

  /** The first line names the kind of message. */
  lemma StartRoundTrip(kind: nat)
    requires kind <= 8
    ensures '\r' !in StartLine(kind)
    ensures ParseStart(StartLine(kind)) == Some(EMPTY.(kind := kind))
  {
    if kind == 8 {
      ResponseStart();
    } else {
      MethodStart(kind);
    }
  }

  const OK_LINE := "DMSDP/1.0 200 OK"

  lemma ResponseStart()
    ensures '\r' !in StartLine(8) && ParseStart(StartLine(8)) == Some(EMPTY.(kind := 8))
  {
    hide FindMethod, ParseInteger, DigitRun;
    NoMethod(OK_LINE, 0);
    OkParts();
    Parse200();
  }

  lemma OkParts()
    ensures DigitRun(OK_LINE[10..]) == 3 && OK_LINE[10..13] == "200" && OK_LINE[13] == ' '
  {
    assert OK_LINE[10..] == "200" + " OK" && AllDigits("200");
    RunOf("200", " OK");
    hide DigitRun;
  }

  lemma Parse200()
    ensures ParseInteger("200") == Some(200)
  {
    CStringId("200");
    assert SkipSpaces("200") == "200";
    assert Value("2") == 2 && "200"[..2] == "20" && "20"[..1] == "2" && Value("20") == 20;
  }

  lemma {:induction false} NoMethod(line: string, i: nat)
    requires line == "DMSDP/1.0 200 OK" && i <= 8
    ensures FindMethod(line, i).None?
    decreases 8 - i
  {
    if i < 8 {
      assert MethodLine(i)[0] != 'D';
      NoMethod(line, i + 1);
    }
  }

  lemma MethodStart(kind: nat)
    requires kind < 8
    ensures '\r' !in MethodLine(kind) && FindMethod(MethodLine(kind), 0) == Some(kind)
  {
    hide FindMethod, MethodLine;
    MethodFound(kind, 0);
    if kind < 4 {
      MethodPlain0(kind);
    } else if kind < 6 {
      MethodPlain4(kind);
    } else {
      MethodPlain6(kind);
    }
  }

  lemma MethodPlain0(kind: nat)
    requires kind < 4
    ensures '\r' !in MethodLine(kind)
  {
  }

  lemma MethodPlain6(kind: nat)
    requires 6 <= kind < 8
    ensures '\r' !in MethodLine(kind)
  {
  }

  lemma MethodPlain4(kind: nat)
    requires 4 <= kind < 6
    ensures '\r' !in MethodLine(kind)
  {
  }

  lemma {:induction false} MethodFound(kind: nat, i: nat)
    requires i <= kind < 8
    ensures FindMethod(MethodLine(kind), i) == Some(kind)
    decreases kind - i
  {
    if i < kind {
      MethodsDiffer(i, kind);
      MethodFound(kind, i + 1);
    }
  }

  lemma MethodsDiffer(i: nat, k: nat)
    requires i < k < 8
    ensures MethodLine(i) != MethodLine(k)
  {
    assert |MethodLine(i)| != |MethodLine(k)| || MethodLine(i)[0] != MethodLine(k)[0];
  }

  /**
   * For every message the builder accepts whose strings have no CRLF, no NUL and no leading space, parsing
   * its text gives exactly the flagged fields.
   */
  lemma BuildParse(m: Msg, cap: nat)
    requires Build(m, cap).Some? && Carries(m)
    ensures Parse(Build(m, cap).value) == Success(Expected(m))
  {
    hide Lines, AnalyzeAll, Joined, ParseHeaders, ParseStart, Crlf, HasCrlf, StartLine, Expect, Carries, Mapped;
    var start := StartLine(m.kind);
    var rest := Joined(Lines(m));
    var text := start + "\r\n" + rest;
    StartRoundTrip(m.kind);
    NoCr(start);
    CrlfAfter(start, rest);
    assert text[..|start|] == start && text[|start| + 2..] == rest;
    LinesWhole(m);
    ReadLines(Lines(m), EMPTY.(kind := m.kind));
    ReadAll(m);
    NoBody(m);
  }

  lemma NoBody(m: Msg)
    ensures Expected(m).contentLength == 0
  {
  }

  // ---------------------------------------------------------------- only clean strings survive

  ghost predicate Intact(s: Option<string>) {
    s.Some? ==> Clean(s.value) && !HasCrlf(s.value)
  }

  lemma {:induction false} CStringPart(s: string)
    ensures CString(s) <= s && 0 as char !in CString(s)
  {
    if s != [] && s[0] != 0 as char {
      CStringPart(s[1..]);
    }
  }

  lemma {:induction false} SkipSpacesPart(s: string)
    ensures |SkipSpaces(s)| <= |s| && SkipSpaces(s) == s[|s| - |SkipSpaces(s)|..]
    ensures SkipSpaces(s) != [] ==> SkipSpaces(s)[0] != ' '
  {
    if s != [] && s[0] == ' ' {
      SkipSpacesPart(s[1..]);
    }
  }

  lemma PartNoCrlf(s: string, a: nat, b: nat)
    requires !HasCrlf(s) && a <= b <= |s|
    ensures !HasCrlf(s[a..b])
  {
    forall i: nat
      ensures !CrlfAt(s[a..b], i)
    {
      assert !CrlfAt(s, a + i);
    }
  }

  /** A stored string has lost its leading spaces and ends before the line does. */
  lemma StoredIntact(line: string, k: nat)
    requires !HasCrlf(line) && k <= |line|
    ensures Intact(Some(CString(SkipSpaces(line[k..]))))
  {
    var v := SkipSpaces(line[k..]);
    SkipSpacesPart(line[k..]);
    CStringPart(v);
    var c := CString(v);
    var a := |line| - |v|;
    assert v == line[a..];
    assert c == line[a..a + |c|];
    PartNoCrlf(line, a, a + |c|);
    hide HasCrlf;
  }

  lemma LineKeepsIntact(line: string, out: Parsed)
    requires !HasCrlf(line) && Intact(out.serviceId) && Intact(out.cryptoAlg)
    ensures var r := AnalyzeLine(line, out); r.Fine? ==> Intact(r.out.serviceId) && Intact(r.out.cryptoAlg)
  {
    hide Intact, HasCrlf, GetKeyword, ParseInteger, FindAttr, FindNeedle, ScanInt, CString, SkipSpaces;
    var k := IndexOf(line, ':');
    if k < |line| {
      StoredIntact(line, k + 1);
    }
  }

  lemma {:induction false} HeadersIntact(s: string, out: Parsed)
    requires Intact(out.serviceId) && Intact(out.cryptoAlg)
    ensures var h := ParseHeaders(s, out); h.Ended? ==> Intact(h.out.serviceId) && Intact(h.out.cryptoAlg)
    decreases |s|
  {
    hide Intact, AnalyzeLine, HasCrlf;
    if s != [] {
      var k := Crlf(s);
      NoCrlfPrefix(s);
      if k < |s| {
        LineKeepsIntact(s[..k], out);
        if k > 0 && AnalyzeLine(s[..k], out).Fine? {
          HeadersIntact(s[k + 2..], AnalyzeLine(s[..k], out).out);
        }
      } else {
        assert s[..k] == s;
        LineKeepsIntact(s, out);
      }
    }
  }

  lemma {:induction false} ParsedIntact(text: string)
    requires Parse(text).Success?
    ensures Intact(Parse(text).out.serviceId) && Intact(Parse(text).out.cryptoAlg)
  {
    hide Intact, ParseHeaders, Crlf, FindTrigger, FindMethod, ParseInteger;
    NoneIntact();
    var k := Crlf(text);
    var start := ParseStart(text[..k]);
    HeadersIntact(text[k + 2..], start.value);
  }

  lemma NoneIntact()
    ensures Intact(None)
  {
  }

  /** What a `char *` can hold. */
  predicate CStrings(m: Msg) {
    && (m.serviceId.Some? ==> 0 as char !in m.serviceId.value)
    && (m.cryptoAlg.Some? ==> 0 as char !in m.cryptoAlg.value)
  }

  /** The parser strips leading spaces and ends a line at a CRLF. */
  ghost predicate Survives(s: string) {
    (s == [] || s[0] != ' ') && !HasCrlf(s)
  }

  /**
   * The round trip holds exactly for the strings it can hold for: a built text parses to the flagged fields
   * if and only if no string it carries has a CRLF or a leading space.
   */
  lemma {:induction false} BuildParseIff(m: Msg, cap: nat)
    requires Build(m, cap).Some? && CStrings(m)
    ensures Parse(Build(m, cap).value) == Success(Expected(m))
            <==> (SERVICE_ID in m.flags1 ==> Survives(m.serviceId.value))
                 && (CRYPTO_ALG in m.flags1 ==> Survives(m.cryptoAlg.value))
  {
    hide Parse, HasCrlf, Mapped, StartLine, Lines, Joined;
    if Carries(m) {
      BuildParse(m, cap);
    }
    if Parse(Build(m, cap).value) == Success(Expected(m)) {
      ParsedIntact(Build(m, cap).value);
    }
  }
}
