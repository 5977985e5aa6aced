/**
 * The DMSDP header builder and parser (src/proto/dmsdp.c). Flag words are sets of bit numbers, strings are
 * sequences of 8-bit characters, and error codes are the original's negative numbers.
 */
module Dmsdp {
  import opened Bytes
  import opened DmsdpText

  // ---------------------------------------------------------------- messages

  const CSEQ := 0
  const CRYPTO_VER := 1
  const CRYPTO_SWITCH := 2
  const CRYPTO_ALG := 3
  const CRYPTO_ABILITY := 4
  const UDP_KA := 5
  const FILLP := 7
  const CODEC := 8
  const TCP := 9
  const SERVICE_ID := 10
  const SERVICE_TYPE := 11
  const DATA_SESSION := 12
  const TRANSPORT_CLIENT := 13
  const TRANSPORT_BOTH := 14
  const TRANSPORT := 19
  const KA_RETRY := 22
  const BACKUP := 1
  const SIMPLE := 3
  const POLY := 4

  const RESPONSE: nat := 8
  const TEXT_MAX: nat := 0x578

  datatype Msg = Msg(kind: nat, status: nat, flags1: set<nat>, flags2: set<nat>, cseq: u32, serviceId: Option<string>,
                     serviceType: u32, dataSession: u32, cryptoVer: byte, cryptoSwitch: byte, cryptoAbility: byte,
                     cryptoAlg: Option<string>, udpKa: byte, fillp: byte, tcp: byte, codec: u32, kaRetry: u32,
                     backup: u32, simple: u32, poly: u32, clientLo: u32, clientHi: u32, serverLo: u32,
                     serverHi: u32)

  datatype Parsed = Parsed(kind: nat, flags1: set<nat>, flags2: set<nat>, trigger: nat, fail: bool, cseq: int,
                           contentLength: int, cryptoVer: int, cryptoSwitch: int, cryptoAlg: Option<string>,
                           cryptoAbility: int, udpKa: int, udpKaPort: int, gpsPort: int, fillp: int, tcp: int,
                           serviceId: Option<string>, serviceType: int, dataSession: int, clientLo: int, clientHi: int,
                           serverLo: int, serverHi: int, timePort: int, timeHigh: int, timeLow: int,
                           avParam: Option<string>, videoMeta: Option<string>, traceId: Option<string>, multiTrans: int,
                           backup: int, replyType: int, simple: int, poly: int)

  const EMPTY := Parsed(0, {}, {}, 0, false, 0, 0, 0, 0, None, 0, 0, 0, 0, 0, 0, None, 0, 0, 0, 0, 0, 0, 0, 0, 0, None,
                        None, None, 0, 0, 0, 0, 0)

  // ---------------------------------------------------------------- builder

  function MethodLine(kind: nat): string
    requires kind < 8
  {
    match kind
    case 0 => "OPTIONS * DMSDP/1.0"
    case 1 => "SETUP * DMSDP/1.0"
    case 2 => "PLAY * DMSDP/1.0"
    case 3 => "TEARDOWN * DMSDP/1.0"
    case 4 => "SET_PARAMETER * DMSDP/1.0"
    case 5 => "GET_PARAMETER * DMSDP/1.0"
    case 6 => "RESETUP * DMSDP/1.0"
    case _ => "TRIGGER_RECONN * DMSDP/1.0"
  }

  function StartLine(kind: nat): string
    requires kind <= 8
  {
    if kind == RESPONSE then "DMSDP/1.0 200 OK" else MethodLine(kind)
  }

  function Line(key: string, value: string): string {
    key + ":" + (" " + value)
  }

  /** A header line that is there or not. */
  function If(on: bool, line: string): seq<string> {
    if on then [line] else []
  }

  function Ports(name: string, lo: u32, hi: u32): string {
    name + "=" + (Dec(lo) + "-" + Dec(hi))
  }

  function TransportClient(m: Msg): string {
    "RTP/AVP/UDP;unicast;" + Ports("client_port", m.clientLo, m.clientHi)
  }

  function TransportBoth(m: Msg): string {
    TransportClient(m) + ";" + Ports("server_port", m.serverLo, m.serverHi)
  }

  function Text(s: Option<string>): string {
    if s.Some? then s.value else []
  }

  /** The header lines, in the builder's order. */
  function Lines(m: Msg): seq<string> {
    Lines1(m) + (Lines2(m) + (Lines3(m) + Lines4(m)))
  }

  function Lines1(m: Msg): seq<string> {
    If(CSEQ in m.flags1, Line("CSeq", Dec(m.cseq)))
    + (If(SERVICE_ID in m.flags1, Line("ServiceID", Text(m.serviceId)))
       + (If(SERVICE_TYPE in m.flags1, Line("ServiceType", Dec(m.serviceType)))
          + If(DATA_SESSION in m.flags1, Line("DataSessionID", Dec(m.dataSession)))))
  }

  function Lines2(m: Msg): seq<string> {
    If(CRYPTO_VER in m.flags1, Line("CryptoVer", Dec(m.cryptoVer)))
    + (If(CRYPTO_SWITCH in m.flags1, Line("CryptoSwitch", Dec(m.cryptoSwitch)))
       + (If(CRYPTO_ABILITY in m.flags1, Line("CryptoAbility", Dec(m.cryptoAbility)))
          + If(CRYPTO_ALG in m.flags1, Line("CryptoAlg", Text(m.cryptoAlg)))))
  }

  function Lines3(m: Msg): seq<string> {
    If(FILLP in m.flags1, Line("Fillp", Dec(m.fillp)))
    + (If(CODEC in m.flags1, Line("Codec", Dec(m.codec)))
       + (If(TCP in m.flags1, Line("TCP", Dec(m.tcp)))
          + (If(BACKUP in m.flags2, Line("Backup", Dec(m.backup)))
             + (If(SIMPLE in m.flags2, Line("Simple", Dec(m.simple)))
                + If(POLY in m.flags2, Line("PolyPackage", Dec(m.poly)))))))
  }

  function Lines4(m: Msg): seq<string> {
    If(UDP_KA in m.flags1, Line("UdpKA", Dec(m.udpKa)))
    + (If(KA_RETRY in m.flags1, Line("KaRetry", Dec(m.kaRetry)))
       + (If(TRANSPORT_BOTH in m.flags1, Line("Transport", TransportBoth(m)))
          + If(TRANSPORT_CLIENT in m.flags1 && TRANSPORT_BOTH !in m.flags1, Line("Transport", TransportClient(m)))))
  }

  /** Lines, each ended by CRLF, and the blank line. */
  function Joined(lines: seq<string>): string {
    if lines == [] then "\r\n" else lines[0] + "\r\n" + Joined(lines[1..])
  }

  predicate Buildable(m: Msg) {
    && m.kind <= 8 && (m.kind == 8 ==> m.status == 200)
    && (SERVICE_ID in m.flags1 ==> m.serviceId.Some?) && (CRYPTO_ALG in m.flags1 ==> m.cryptoAlg.Some?)
  }

  /** None is the builder's -1. The buffer holds 1400 bytes, the last of them a NUL. */
  function Build(m: Msg, cap: nat): Option<string> {
    if !Buildable(m) then None
    else
      var text := StartLine(m.kind) + "\r\n" + Joined(Lines(m));
      if |text| >= TEXT_MAX || cap < |text| then None else Some(text)
  }

  // ---------------------------------------------------------------- parser

  /** The name table. */
  function Name(k: nat): string
    requires k < 30
  {
    match k
    case 0 => "CSeq"
    case 1 => "Content-Length"
    case 2 => "Content-Type"
    case 3 => "ServiceID"
    case 4 => "ServiceType"
    case 5 => "DataSessionID"
    case 6 => "CryptoVer"
    case 7 => "CryptoSwitch"
    case 8 => "CryptoAlg"
    case 9 => "CryptoAbility"
    case 10 => "UdpKA"
    case 11 => "UdpKAport"
    case 12 => "Fillp"
    case 13 => "Codec"
    case 14 => "TCP"
    case 15 => "VideoParameter"
    case 16 => "AudioParameter"
    case 17 => "GpsParameter"
    case 18 => "VideoMetaParameter"
    case 19 => "Transport"
    case 20 => "TimeServerPort"
    case 21 => "TimeUsHigh"
    case 22 => "TimeUsLow"
    case 23 => "DeviceTraceId"
    case 24 => "KaRetry"
    case 25 => "MultiTrans"
    case 26 => "Backup"
    case 27 => "ReplyType"
    case 28 => "Simple"
    case _ => "PolyPackage"
  }

  /** `strncmp` over the length of the key. */
  predicate Matches(key: string, name: string) {
    var c := CString(key);
    if |c| == |key| then c <= name else c == name
  }

  /** The first name from position `i` on that the key abbreviates, or 30. */
  function Keyword(key: string, i: nat): (k: nat)
    requires i <= 30
    ensures i <= k <= 30
    decreases 30 - i
  {
    if i == 30 || Matches(key, Name(i)) then i else Keyword(key, i + 1)
  }

  function SkipBack(s: string): string {
    if s != [] && s[|s| - 1] == ' ' then SkipBack(s[..|s| - 1]) else s
  }

  /** 30 stands for an unknown key. */
  function GetKeyword(key: string): (k: nat)
    ensures k <= 30
  {
    var t := SkipBack(SkipSpaces(key));
    if t == [] then 30 else Keyword(t, 0)
  }

  function Flag1(idx: nat): set<nat> {
    match idx
    case 0 => {0}
    case 3 => {10}
    case 4 => {11}
    case 5 => {12}
    case 6 => {1}
    case 7 => {2}
    case 8 => {3}
    case 9 => {4}
    case 10 => {5}
    case 11 => {6}
    case 12 => {7}
    case 13 => {8}
    case 14 => {9}
    case 15 => {15}
    case 16 => {16}
    case 17 => {17}
    case 18 => {18}
    case 19 => {19}
    case 20 => {20}
    case 23 => {21}
    case 24 => {22}
    case _ => {}
  }

  function Flag2(idx: nat): set<nat> {
    if 25 <= idx < 30 then {idx - 25} else {}
  }

  predicate IsString(idx: nat) {
    idx in {2, 3, 8, 15, 16, 17, 18, 19, 23}
  }

  /** -10 makes the line be ignored. */
  datatype Analyzed = Fine(out: Parsed) | Bad(code: int)

  function PutInteger(idx: nat, v: int, out: Parsed): Parsed {
    match idx
    case 0 => out.(cseq := v)
    case 1 => out.(contentLength := v)
    case 4 => out.(serviceType := v)
    case 5 => out.(dataSession := v)
    case 6 => out.(cryptoVer := v % 256)
    case 7 => out.(cryptoSwitch := v % 256)
    case 9 => out.(cryptoAbility := v % 256)
    case 10 => out.(udpKa := v % 256)
    case 11 => out.(udpKaPort := v)
    case 12 => out.(fillp := v % 256)
    case 14 => out.(tcp := v % 256)
    case 20 => out.(timePort := v)
    case 21 => out.(timeHigh := v)
    case 22 => out.(timeLow := v)
    case 25 => out.(multiTrans := v)
    case 26 => out.(backup := v % 256)
    case 27 => out.(replyType := v % 256)
    case 28 => out.(simple := v % 256)
    case 29 => out.(poly := v % 256)
    case _ => out
  }

  function AnalyzeInteger(idx: nat, val: string, out: Parsed): Analyzed {
    if idx == 13 || idx == 24 then Bad(-10)
    else
      var v := ParseInteger(val);
      if v.None? then Bad(if |val| > 16 then -9 else -1) else Fine(PutInteger(idx, v.value, out))
  }

  /** The value of the first attribute segment of that name: absent, malformed or a range. */
  datatype Attr = Absent | Malformed | Found(range: Range)

  function FindAttr(val: string, name: string): Attr
    decreases |val|
  {
    if val == [] then Absent
    else
      var k := IndexOf(val, ';');
      var segment := val[..k];
      if |segment| >= 12 && segment[11] == '=' && segment[..11] == name then
        var r := ParseRange(segment[12..]);
        if r.None? then Malformed else Found(r.value)
      else if k < |val| then FindAttr(val[k + 1..], name)
      else Absent
  }

  function ParseTransport(val: string, out: Parsed): Parsed {
    if |val| < 20 || val[..20] != "RTP/AVP/UDP;unicast;" then out
    else
      var c := FindAttr(val, "client_port");
      if c.Malformed? then out
      else
        var mid := if c.Found? then out.(clientLo := c.range.lo, clientHi := c.range.hi) else out;
        var s := FindAttr(val, "server_port");
        if s.Found? then mid.(serverLo := s.range.lo, serverHi := s.range.hi) else mid
  }

  function FindNeedle(s: string, needle: string): nat
    requires needle != []
  {
    if |s| < |needle| then |s| else if s[..|needle|] == needle then 0 else 1 + FindNeedle(s[1..], needle)
  }

  function SkipEquals(s: string): string {
    if s != [] && s[0] in {' ', '\t', '\n', '\r', '='} then SkipEquals(s[1..]) else s
  }

  function ParseGps(val: string, out: Parsed): Analyzed {
    var at := FindNeedle(val, "ServerUdpPort");
    if at + 13 > |val| then Bad(-5)
    else
      var rest := SkipEquals(val[at + 13..]);
      var segment := rest[..IndexOf(rest, ';')];
      var v := ScanInt(CString(segment));
      if |segment| >= 20 || v.None? || !(0 < v.value.value < 0x8000_0000) then Bad(-5)
      else Fine(out.(gpsPort := v.value.value))
  }

  function AnalyzeString(idx: nat, val: string, out: Parsed): Analyzed {
    match idx
    case 2 => Fine(out)
    case 3 => Fine(out.(serviceId := Some(CString(val))))
    case 8 => Fine(out.(cryptoAlg := Some(CString(val))))
    case 15 => Fine(out.(avParam := Some(CString(val))))
    case 16 => Fine(out.(avParam := Some(CString(val))))
    case 17 => ParseGps(val, out)
    case 18 => Fine(out.(videoMeta := Some(CString(val))))
    case 19 => Fine(ParseTransport(val, out))
    case 23 => Fine(out.(traceId := Some(CString(val))))
    case _ => Bad(-10)
  }

  function AnalyzeLine(line: string, out: Parsed): Analyzed {
    var k := IndexOf(line, ':');
    if k == |line| || k == 0 || |line| <= 1 || k >= |line| - 1 then Bad(-5)
    else
      var idx := GetKeyword(line[..k]);
      if idx == 30 then Fine(out)
      else
        var flagged := out.(flags1 := out.flags1 + Flag1(idx), flags2 := out.flags2 + Flag2(idx));
        var val := line[k + 1..];
        var r :=
          if IsString(idx) then AnalyzeString(idx, SkipSpaces(val), flagged) else AnalyzeInteger(idx, val, flagged);
        if r == Bad(-10) then
          Fine(out.(flags1 := flagged.flags1 - Flag1(idx), flags2 := flagged.flags2 - Flag2(idx)))
        else r
  }

  datatype Headers = Ended(out: Parsed, body: string) | Broken(code: int)

  /** Header lines up to the blank line; a missing final blank line is tolerated. */
  function ParseHeaders(s: string, out: Parsed): Headers
    decreases |s|
  {
    if s == [] then Ended(out, [])
    else
      var k := Crlf(s);
      if k < |s| then
        if k == 0 then Ended(out, s[2..])
        else
          var r := AnalyzeLine(s[..k], out);
          if r.Bad? then Broken(r.code) else ParseHeaders(s[k + 2..], r.out)
      else if |s| < 2 then Broken(-2)
      else
        var r := AnalyzeLine(s, out);
        if r.Bad? then Broken(r.code) else Ended(r.out, [])
  }

  function TriggerBody(i: nat): string
    requires 1 <= i <= 5
  {
    "msdp_trigger_method: " + (match i
                               case 1 => "SETUP"
                               case 2 => "TEARDOWN"
                               case 3 => "OPTIONS"
                               case 4 => "CLOSE"
                               case _ => "RESETUP") + "\r\n"
  }

  function FindTrigger(body: string, i: nat): Option<nat>
    requires 1 <= i <= 6
    decreases 6 - i
  {
    if i == 6 then None else if body == TriggerBody(i) then Some(i) else FindTrigger(body, i + 1)
  }

  function FindMethod(line: string, i: nat): Option<nat>
    requires i <= 8
    decreases 8 - i
  {
    if i == 8 then None else if line == MethodLine(i) then Some(i) else FindMethod(line, i + 1)
  }

  function ParseStart(line: string): Option<Parsed> {
    var m := FindMethod(line, 0);
    if m.Some? then Some(EMPTY.(kind := m.value))
    else if |line| < 10 || line[..10] != "DMSDP/1.0 " || |line| - 10 > 12 then None
    else
      var d := DigitRun(line[10..]);
      if d == 0 || d == |line| - 10 || line[10 + d] != ' ' then None
      else
        var v := ParseInteger(line[10..10 + d]);
        if v.None? then None else Some(EMPTY.(kind := RESPONSE, fail := v.value != 200))
  }

  datatype Result = Success(out: Parsed) | Failure(code: int)

  function CheckBody(out: Parsed, body: string): Result {
    if out.contentLength <= 0 then Success(out)
    else if |body| != out.contentLength then Failure(-2)
    else
      var t := FindTrigger(body, 1);
      if t.None? then Failure(-2) else Success(out.(trigger := t.value))
  }

  function Parse(text: string): Result {
    var k := Crlf(text);
    if k == |text| then Failure(-2)
    else
      var start := ParseStart(text[..k]);
      if start.None? then Failure(-2)
      else
        match ParseHeaders(text[k + 2..], start.value)
        case Broken(code) => Failure(code)
        case Ended(out, body) => CheckBody(out, body)
  }

  // ---------------------------------------------------------------- the loop

  /** One turn of the loop. */
  lemma HeaderStep(s: string, out: Parsed)
    requires s != []
    ensures var k := Crlf(s);
            ParseHeaders(s, out)
            == if k < |s| then
                 if k == 0 then Ended(out, s[2..])
                 else
                   var r := AnalyzeLine(s[..k], out);
                   if r.Bad? then Broken(r.code) else ParseHeaders(s[k + 2..], r.out)
               else if |s| < 2 then Broken(-2)
               else
                 var r := AnalyzeLine(s, out);
                 if r.Bad? then Broken(r.code) else Ended(r.out, [])
  {
    hide AnalyzeLine, Crlf, CrlfAt;
  }

  /** The header loop over positions of the buffer. */
  method ScanHeaders(text: string, from: nat, start: Parsed) returns (h: Headers)
    requires from <= |text|
    ensures h == ParseHeaders(text[from..], start)
  {
    hide AnalyzeLine, Crlf, ParseHeaders, CrlfAt;
    var pos, out := from, start;
    while pos < |text|
      invariant from <= pos <= |text|
      invariant ParseHeaders(text[pos..], out) == ParseHeaders(text[from..], start)
      decreases |text| - pos
    {
      var rest := text[pos..];
      HeaderStep(rest, out);
      CrlfFits(rest);
      var k := Crlf(rest);
      if k < |rest| {
        if k == 0 {
          return Ended(out, rest[2..]);
        }
        var r := AnalyzeLine(rest[..k], out);
        if r.Bad? {
          return Broken(r.code);
        }
        assert rest[k + 2..] == text[pos + k + 2..];
        pos, out := pos + k + 2, r.out;
      } else {
        if |rest| < 2 {
          return Broken(-2);
        }
        var r := AnalyzeLine(rest, out);
        if r.Bad? {
          return Broken(r.code);
        }
        return Ended(r.out, []);
      }
    }
    assert text[pos..] == [];
    NoHeaders(out);
    return Ended(out, []);
  }

  lemma NoHeaders(out: Parsed)
    ensures ParseHeaders([], out) == Ended(out, [])
  {
  }

  lemma CrlfFits(s: string)
    ensures Crlf(s) < |s| ==> Crlf(s) + 2 <= |s|
  {
  }

  // ---------------------------------------------------------------- lines survive

  predicate Clean(s: string) {
    0 as char !in s && (s == [] || s[0] != ' ')
  }

  function AnalyzeAll(lines: seq<string>, out: Parsed): Analyzed
    decreases |lines|
  {
    if lines == [] then Fine(out)
    else
      var r := AnalyzeLine(lines[0], out);
      if r.Bad? then r else AnalyzeAll(lines[1..], r.out)
  }

  /** The parser reads exactly the lines that were written. */
  lemma {:induction false} ReadLines(lines: seq<string>, out: Parsed)
    requires forall i | 0 <= i < |lines| :: lines[i] != [] && !HasCrlf(lines[i])
    ensures ParseHeaders(Joined(lines), out)
            == match AnalyzeAll(lines, out) case Fine(r) => Ended(r, []) case Bad(code) => Broken(code)
    decreases |lines|
  {
    hide AnalyzeLine, HasCrlf;
    if lines == [] {
      assert CrlfAt("\r\n", 0);
      assert Crlf("\r\n") == 0;
    } else {
      var s := Joined(lines);
      var rest := Joined(lines[1..]);
      CrlfAfter(lines[0], rest);
      assert s[..|lines[0]|] == lines[0] && s[|lines[0]| + 2..] == rest;
      var r := AnalyzeLine(lines[0], out);
      if r.Fine? {
        ReadLines(lines[1..], r.out);
      }
    }
  }

  /** An optional line in front of others. */
  lemma AnalyzeIf(on: bool, line: string, rest: seq<string>, out: Parsed, next: Parsed)
    requires on ==> AnalyzeLine(line, out) == Fine(next)
    requires !on ==> next == out
    ensures AnalyzeAll(If(on, line) + rest, out) == AnalyzeAll(rest, next)
  {
    hide AnalyzeLine;
    if on {
      assert (If(on, line) + rest)[1..] == rest;
    } else {
      assert If(on, line) + rest == rest;
    }
  }

  /** What a line does once its key is known. */
  lemma LineEffect(key: string, value: string, idx: nat, out: Parsed)
    requires key != [] && ':' !in key && GetKeyword(key) == idx < 30
    ensures var flagged := out.(flags1 := out.flags1 + Flag1(idx), flags2 := out.flags2 + Flag2(idx));
            var r := if IsString(idx) then AnalyzeString(idx, SkipSpaces(" " + value), flagged)
                     else AnalyzeInteger(idx, " " + value, flagged);
            AnalyzeLine(Line(key, value), out)
            == if r == Bad(-10) then Fine(out.(flags1 := flagged.flags1 - Flag1(idx),
                                               flags2 := flagged.flags2 - Flag2(idx)))
               else r
  {
    hide AnalyzeString, AnalyzeInteger, GetKeyword, SkipSpaces;
    var line := Line(key, value);
    assert line == key + [':'] + (" " + value);
    IndexAfter(key, ':', " " + value);
    assert line[..|key|] == key && line[|key| + 1..] == " " + value;
  }
}
