/**
 * The header lines of the DMSDP parser, from anybody: which ones it refuses, and that every field holds what the
 * last line for its key says.
 */
module DmsdpGrammar {
  import opened Bytes
  import opened DmsdpText
  import opened Dmsdp

  // ---------------------------------------------------------------- numbers

  function Spaces(n: nat): string {
    if n == 0 then [] else " " + Spaces(n - 1)
  }

  predicate SignOr(s: string) {
    s == "" || s == "+" || s == "-"
  }

  function Signed(sign: string, digits: string): int {
    if sign == "-" then -Value(digits) else Value(digits)
  }

  /** Spaces, a sign or none, digits or none, but neither nothing at all nor a sign alone. */
  ghost predicate Spelled(t: string, pad: nat, sign: string, digits: string) {
    t == Spaces(pad) + (sign + digits) && SignOr(sign) && AllDigits(digits) && t != "" && t != "+" && t != "-"
  }

  ghost predicate Numeral(val: string, n: int) {
    |val| <= 16 && exists pad, sign, digits :: Spelled(CString(val), pad, sign, digits) && n == Signed(sign, digits)
  }

  lemma {:induction false} SkipSpacesIs(s: string, pad: nat, rest: string)
    requires s == Spaces(pad) + rest && (rest == [] || rest[0] != ' ')
    ensures SkipSpaces(s) == rest
    decreases pad
  {
    if pad > 0 {
      assert s[0] == ' ' && s[1..] == Spaces(pad - 1) + rest;
      SkipSpacesIs(s[1..], pad - 1, rest);
    } else {
      assert s == rest;
    }
  }

  lemma {:induction false} SpacesSkipped(s: string) returns (pad: nat)
    ensures s == Spaces(pad) + SkipSpaces(s) && (SkipSpaces(s) == [] || SkipSpaces(s)[0] != ' ')
  {
    if s != [] && s[0] == ' ' {
      var k := SpacesSkipped(s[1..]);
      pad := k + 1;
      assert s == " " + s[1..];
    } else {
      pad := 0;
    }
  }

  lemma SpelledParses(val: string, pad: nat, sign: string, digits: string)
    requires |val| <= 16 && Spelled(CString(val), pad, sign, digits)
    ensures ParseInteger(val) == Some(Signed(sign, digits) % WORD)
  {
    hide CString, Value;
    var t := CString(val);
    SkipSpacesIs(t, pad, sign + digits);
    var u := SkipSpaces(t);
    hide SkipSpaces;
    if sign == "" {
      assert u == digits;
      assert !Sign(u) by {
        if u != [] {
          assert IsDigit(u[0]);
        }
      }
    } else {
      assert u[1..] == digits && u[0] == sign[0];
      if |t| == 1 {
        OneSign(t, pad, sign, digits);
      }
    }
  }

  lemma OneSign(t: string, pad: nat, sign: string, digits: string)
    requires |t| == 1 && t == Spaces(pad) + (sign + digits) && |sign| == 1
    ensures t == sign
  {
    assert |t| == |Spaces(pad)| + 1 + |digits|;
    assert Spaces(pad) == "";
  }

  lemma ParsesSpelled(val: string) returns (pad: nat, sign: string, digits: string)
    requires ParseInteger(val).Some?
    ensures Spelled(CString(val), pad, sign, digits)
  {
    hide CString, Value;
    var t := CString(val);
    pad := SpacesSkipped(t);
    var u := SkipSpaces(t);
    assert t != "" && t[0] != ' ' ==> u == t;
    hide SkipSpaces;
    sign := if Sign(u) then u[..1] else "";
    digits := if Sign(u) then u[1..] else u;
    assert u == sign + digits;
  }

  /** The parser reads exactly the numerals, and keeps the low 32 bits. */
  lemma {:induction false} ParseIntegerIff(val: string, v: int)
    ensures ParseInteger(val) == Some(v) <==> exists n :: Numeral(val, n) && v == n % WORD
  {
    hide ParseInteger, Spelled, CString, Signed;
    if n :| Numeral(val, n) && v == n % WORD {
      var pad, sign, digits :| Spelled(CString(val), pad, sign, digits) && n == Signed(sign, digits);
      LongIsNone(val);
      SpelledParses(val, pad, sign, digits);
    }
    if ParseInteger(val) == Some(v) {
      LongIsNone(val);
      var pad, sign, digits := ParsesSpelled(val);
      SpelledParses(val, pad, sign, digits);
      assert Numeral(val, Signed(sign, digits));
    }
  }

  lemma LongIsNone(val: string)
    ensures |val| > 16 ==> ParseInteger(val).None?
  {
  }

  // ---------------------------------------------------------------- keys

  /** Spaces around a text that neither begins nor ends with one. */
  ghost predicate Trimmed(key: string, t: string) {
    t != "" && t[0] != ' ' && t[|t| - 1] != ' ' && exists lead, trail :: key == Spaces(lead) + t + Spaces(trail)
  }

  /** `t` is the beginning of the name, and of no earlier one in the table. */
  ghost predicate FirstNamed(t: string, k: nat)
    requires k < 30
  {
    Matches(t, Name(k)) && forall j | 0 <= j < k :: !Matches(t, Name(j))
  }

  ghost predicate Names(key: string, k: nat)
    requires k < 30
  {
    exists t :: Trimmed(key, t) && FirstNamed(t, k)
  }

  lemma {:induction false} KeywordIff(t: string, i: nat, k: nat)
    requires i <= k < 30
    ensures Keyword(t, i) == k <==> Matches(t, Name(k)) && forall j | i <= j < k :: !Matches(t, Name(j))
    decreases 30 - i
  {
    hide Matches, Name;
    if i < k && !Matches(t, Name(i)) {
      KeywordIff(t, i + 1, k);
    }
  }

  lemma {:induction false} SkipBackIs(s: string, t: string, trail: nat)
    requires s == t + Spaces(trail) && (t == [] || t[|t| - 1] != ' ')
    ensures SkipBack(s) == t
    decreases trail
  {
    if trail > 0 {
      SpacesSnoc(trail);
      assert s[|s| - 1] == ' ' && s[..|s| - 1] == t + Spaces(trail - 1);
      SkipBackIs(s[..|s| - 1], t, trail - 1);
    } else {
      assert s == t;
    }
  }

  lemma {:induction false} SpacesSnoc(n: nat)
    requires n > 0
    ensures Spaces(n) == Spaces(n - 1) + " "
  {
    if n > 1 {
      SpacesSnoc(n - 1);
    }
  }

  lemma {:induction false} SpacesSkippedBack(s: string) returns (trail: nat)
    ensures s == SkipBack(s) + Spaces(trail) && SkipBack(s) <= s
    ensures SkipBack(s) == [] || SkipBack(s)[|SkipBack(s)| - 1] != ' '
  {
    if s != [] && s[|s| - 1] == ' ' {
      var k := SpacesSkippedBack(s[..|s| - 1]);
      trail := k + 1;
      SpacesSnoc(trail);
      assert s == s[..|s| - 1] + " ";
    } else {
      trail := 0;
    }
  }

  lemma TrimmedBack(key: string, t: string)
    requires Trimmed(key, t)
    ensures t == SkipBack(SkipSpaces(key))
  {
    var lead, trail :| key == Spaces(lead) + t + Spaces(trail);
    hide SkipBack, SkipSpaces, Spaces;
    assert key == Spaces(lead) + (t + Spaces(trail));
    assert (t + Spaces(trail))[0] == t[0];
    SkipSpacesIs(key, lead, t + Spaces(trail));
    SkipBackIs(t + Spaces(trail), t, trail);
  }

  lemma TrimmedIff(key: string, t: string)
    ensures Trimmed(key, t) <==> t != "" && t == SkipBack(SkipSpaces(key))
  {
    if Trimmed(key, t) {
      TrimmedBack(key, t);
    }
    if t != "" && t == SkipBack(SkipSpaces(key)) {
      var lead := SpacesSkipped(key);
      var trail := SpacesSkippedBack(SkipSpaces(key));
      hide SkipBack, SkipSpaces, Spaces;
      assert SkipSpaces(key)[0] == t[0];
      assert key == Spaces(lead) + t + Spaces(trail);
    }
  }

  /** The key of a line is looked up without the spaces around it, and may be abbreviated. */
  lemma {:induction false} KeyIff(key: string, k: nat)
    requires k < 30
    ensures GetKeyword(key) == k <==> Names(key, k)
  {
    hide Keyword, Matches, Name, SkipBack, SkipSpaces, Trimmed;
    var t := SkipBack(SkipSpaces(key));
    TrimmedIff(key, t);
    KeywordIff(t, 0, k);
    forall x | Trimmed(key, x)
      ensures x == t
    {
      TrimmedIff(key, x);
    }
  }

  // ---------------------------------------------------------------- lines

  /** The key is what precedes the first colon; neither key nor value is empty. */
  predicate Split(line: string, key: string, val: string) {
    line == key + [':'] + val && ':' !in key && key != "" && val != ""
  }

  lemma SplitIs(line: string, key: string, val: string)
    ensures Split(line, key, val) <==>
              var k := IndexOf(line, ':');
              0 < k && k + 1 < |line| && key == line[..k] && val == line[k + 1..]
  {
    if Split(line, key, val) {
      IndexAfter(key, ':', val);
      assert line[..|key|] == key && line[|key| + 1..] == val;
    } else {
      var k := IndexOf(line, ':');
      if 0 < k && k + 1 < |line| {
        FromIndex(line);
      }
    }
  }

  lemma FromIndex(line: string)
    requires var k := IndexOf(line, ':'); 0 < k && k + 1 < |line|
    ensures var k := IndexOf(line, ':'); Split(line, line[..k], line[k + 1..])
  {
    hide IndexOf;
    SplitAt(line, IndexOf(line, ':'));
  }

  lemma SplitAt(line: string, k: nat)
    requires 0 < k && k + 1 < |line| && line[k] == ':' && forall i | 0 <= i < k :: line[i] != ':'
    ensures Split(line, line[..k], line[k + 1..])
  {
    var key, val := line[..k], line[k + 1..];
    assert line == key + [line[k]] + val;
    assert |key| == k && |val| == |line| - k - 1;
  }

  const SOFT: set<nat> := {13, 24}
  const TEXTS: set<nat> := {2, 3, 8, 15, 16, 17, 18, 19, 23}
  const SHORT: set<nat> := {6, 7, 9, 10, 12, 14, 26, 27, 28, 29}

  /** Keys whose value has to be a number. */
  predicate Numeric(k: nat) {
    k < 30 && k !in SOFT && k !in TEXTS
  }

  /** The line is about this key. */
  ghost predicate About(line: string, k: nat, val: string)
    requires k < 30
  {
    exists key :: Split(line, key, val) && Names(key, k)
  }

  /** The line gives this number, cut to a byte for the short fields. */
  ghost predicate Gives(line: string, k: nat, v: int)
    requires k < 30
  {
    exists val, n :: About(line, k, val) && Numeral(val, n) && v == if k in SHORT then n % 256 else n % WORD
  }

  /** The line is refused: no key or no value, no number where one is wanted, or no port of a GPS server. */
  ghost predicate Refused(line: string) {
    || (forall key, val :: !Split(line, key, val))
    || (exists k: nat, val :: Numeric(k) && About(line, k, val) && forall n :: !Numeral(val, n))
    || (exists val :: About(line, 17, val) && forall port :: !GpsSays(SkipSpaces(val), port))
  }

  function GpsPort(val: string): Option<int> {
    match ParseGps(val, EMPTY)
    case Fine(out) => Some(out.gpsPort)
    case Bad(_) => None
  }

  /** Where the parser puts the number of a key. */
  function NumberField(k: nat, p: Parsed): int {
    match k
    case 0 => p.cseq
    case 1 => p.contentLength
    case 4 => p.serviceType
    case 5 => p.dataSession
    case 6 => p.cryptoVer
    case 7 => p.cryptoSwitch
    case 9 => p.cryptoAbility
    case 10 => p.udpKa
    case 11 => p.udpKaPort
    case 12 => p.fillp
    case 14 => p.tcp
    case 20 => p.timePort
    case 21 => p.timeHigh
    case 22 => p.timeLow
    case 25 => p.multiTrans
    case 26 => p.backup
    case 27 => p.replyType
    case 28 => p.simple
    case _ => p.poly
  }

  // ---------------------------------------------------------------- what a line does

  /** A line that has a key and a value, as the parser takes it apart. */
  lemma LineParts(line: string, key: string, val: string, out: Parsed)
    requires Split(line, key, val)
    ensures var idx := GetKeyword(key);
            var flagged := out.(flags1 := out.flags1 + Flag1(idx), flags2 := out.flags2 + Flag2(idx));
            AnalyzeLine(line, out)
            == if idx == 30 then Fine(out)
               else
                 var r := if IsString(idx) then AnalyzeString(idx, SkipSpaces(val), flagged)
                          else AnalyzeInteger(idx, val, flagged);
                 if r == Bad(-10) then
                   Fine(out.(flags1 := flagged.flags1 - Flag1(idx), flags2 := flagged.flags2 - Flag2(idx)))
                 else r
  {
    SplitIs(line, key, val);
    hide AnalyzeString, AnalyzeInteger, GetKeyword, SkipSpaces, IndexOf;
  }

  lemma Unsplit(line: string, out: Parsed)
    requires forall key, val :: !Split(line, key, val)
    ensures AnalyzeLine(line, out) == Bad(-5)
  {
    var k := IndexOf(line, ':');
    if 0 < k && k + 1 < |line| {
      FromIndex(line);
    }
    hide AnalyzeString, AnalyzeInteger, GetKeyword, SkipSpaces, IndexOf;
  }

  /** A line is about one key at most. */
  lemma AboutOne(line: string, key: string, val: string, k: nat, x: string)
    requires Split(line, key, val) && k < 30
    ensures About(line, k, x) <==> x == val && GetKeyword(key) == k
  {
    hide Names, Split, GetKeyword;
    KeyIff(key, k);
    forall y | Split(line, y, x)
      ensures y == key && x == val
    {
      SplitIs(line, y, x);
      SplitIs(line, key, val);
    }
  }

  lemma NumeralIff(val: string)
    ensures ParseInteger(val).Some? <==> exists n :: Numeral(val, n)
    ensures forall n :: Numeral(val, n) ==> ParseInteger(val) == Some(n % WORD)
  {
    hide ParseInteger, Numeral;
    if ParseInteger(val).Some? {
      ParseIntegerIff(val, ParseInteger(val).value);
    }
    forall n | Numeral(val, n)
      ensures ParseInteger(val) == Some(n % WORD)
    {
      ParseIntegerIff(val, n % WORD);
    }
  }

  /** A line is analyzed without error exactly when it is not refused. */
  lemma {:induction false} RefusedIff(line: string, out: Parsed)
    ensures AnalyzeLine(line, out).Fine? <==> !Refused(line)
  {
    hide About, Numeral, ParseInteger, GetKeyword, SkipSpaces, ParseGps, GpsPort, GpsSays;
    if forall key, val :: !Split(line, key, val) {
      Unsplit(line, out);
    } else {
      var key, val :| Split(line, key, val);
      hide Split;
      LineParts(line, key, val, out);
      var idx := GetKeyword(key);
      forall k: nat, x | k < 30
        ensures About(line, k, x) <==> x == val && idx == k
      {
        AboutOne(line, key, val, k, x);
      }
      NumeralIff(val);
      NoGps(SkipSpaces(val));
      GpsIff(SkipSpaces(val), out.(flags1 := out.flags1 + Flag1(17), flags2 := out.flags2 + Flag2(17)));
      OtherTexts(idx, SkipSpaces(val), out);
      hide AnalyzeLine, AnalyzeString;
      if idx < 30 {
        assert About(line, idx, val);
      }
    }
  }

  lemma GpsIff(val: string, out: Parsed)
    ensures ParseGps(val, out).Fine? <==> GpsPort(val).Some?
    ensures ParseGps(val, out).Fine? ==> ParseGps(val, out) == Fine(out.(gpsPort := GpsPort(val).value))
    ensures ParseGps(val, out).Bad? ==> ParseGps(val, out).code == -5
  {
    hide FindNeedle, SkipEquals, IndexOf, ScanInt, CString;
  }

  lemma OtherTexts(idx: nat, val: string, out: Parsed)
    ensures idx in TEXTS && idx != 17 ==> forall o :: AnalyzeString(idx, val, o).Fine?
    ensures idx == 17 ==> forall o :: AnalyzeString(idx, val, o) == ParseGps(val, o)
  {
    hide ParseGps, ParseTransport, CString;
  }

  /** Which texts share a place: both parameters of audio and video do. */
  function Slot(k: nat): nat {
    if k == 16 then 15 else k
  }

  /** The line gives this text for a place. */
  ghost predicate CarriesText(line: string, slot: nat, t: string) {
    exists k: nat, val :: k < 30 && Slot(k) == slot && About(line, k, val) && t == CString(SkipSpaces(val))
  }

  /** Where the parser puts a text. */
  function TextField(slot: nat, p: Parsed): Option<string> {
    match slot
    case 3 => p.serviceId
    case 8 => p.cryptoAlg
    case 15 => p.avParam
    case 18 => p.videoMeta
    case _ => p.traceId
  }

  /** Which bits are set for a key, the first flag word and the second. */
  ghost predicate Flagged(k: nat, second: bool, b: nat) {
    if second then 25 <= k < 30 && b == k - 25
    else
      (k, b) in {(0, 0), (3, 10), (4, 11), (5, 12), (6, 1), (7, 2), (8, 3), (9, 4), (10, 5), (11, 6), (12, 7),
                 (14, 9), (15, 15), (16, 16), (17, 17), (18, 18), (19, 19), (20, 20), (23, 21)}
  }

  /** Some line is about a key with this bit. */
  ghost predicate Raises(line: string, second: bool, b: nat) {
    exists k: nat, val :: k < 30 && Flagged(k, second, b) && About(line, k, val)
  }

  // ---------------------------------------------------------------- one line and the fields

  /** What an analyzed line leaves: `k` is its key, or 30. */
  ghost predicate Effect(k: nat, val: string, out: Parsed, r: Parsed) {
    && (forall j | Numeric(j) :: NumberField(j, r) == if j != k then NumberField(j, out) else
          (var v := ParseInteger(val); if v.None? then 0 else if k in SHORT then v.value % 256 else v.value))
    && (forall slot | slot in {3, 8, 15, 18, 23} ::
          TextField(slot, r)
          == if Slot(k) == slot && k < 30 then Some(CString(SkipSpaces(val))) else TextField(slot, out))
    && (forall b | b !in {8, 22} :: b in r.flags1 <==> b in out.flags1 || Flagged(k, false, b))
    && (forall b | b in {8, 22} :: b in r.flags1 ==> b in out.flags1)
    && (forall b :: b in r.flags2 <==> b in out.flags2 || Flagged(k, true, b))
    && r.kind == out.kind && r.trigger == out.trigger && r.fail == out.fail
  }

  lemma FlagsAre(k: nat, b: nat)
    ensures k !in SOFT ==> (b in Flag1(k) <==> Flagged(k, false, b))
    ensures k in SOFT ==> Flag1(k) <= {8, 22} && !Flagged(k, false, b) && Flag2(k) == {}
    ensures b in Flag2(k) <==> Flagged(k, true, b)
    ensures Flagged(k, false, b) ==> b !in {8, 22}
  {
  }

  lemma NumberEffect(k: nat, val: string, out: Parsed, flagged: Parsed)
    requires Numeric(k) && AnalyzeInteger(k, val, flagged).Fine?
    requires flagged == out.(flags1 := out.flags1 + Flag1(k), flags2 := out.flags2 + Flag2(k))
    ensures Effect(k, val, out, AnalyzeInteger(k, val, flagged).out)
  {
    hide ParseInteger, CString, SkipSpaces, Flag1, Flag2, Flagged;
    forall b: nat
      ensures (b in Flag1(k) <==> Flagged(k, false, b)) && (b in Flag2(k) <==> Flagged(k, true, b))
      ensures Flagged(k, false, b) ==> b !in {8, 22}
    {
      FlagsAre(k, b);
    }
    var r := AnalyzeInteger(k, val, flagged).out;
    NumberStored(k, ParseInteger(val).value, flagged);
    assert forall v: int :: v % WORD % 256 == v % 256;
  }

  lemma NumberStored(k: nat, v: int, out: Parsed)
    requires Numeric(k)
    ensures var r := PutInteger(k, v, out);
            && r == out.(cseq := r.cseq, contentLength := r.contentLength, serviceType := r.serviceType,
                         dataSession := r.dataSession, cryptoVer := r.cryptoVer, cryptoSwitch := r.cryptoSwitch,
                         cryptoAbility := r.cryptoAbility, udpKa := r.udpKa, udpKaPort := r.udpKaPort,
                         fillp := r.fillp, tcp := r.tcp, timePort := r.timePort, timeHigh := r.timeHigh,
                         timeLow := r.timeLow, multiTrans := r.multiTrans, backup := r.backup,
                         replyType := r.replyType, simple := r.simple, poly := r.poly)
            && forall j | Numeric(j) ::
                 NumberField(j, r) == if j != k then NumberField(j, out) else if k in SHORT then v % 256 else v
  {
  }

  lemma TextEffect(k: nat, val: string, out: Parsed, flagged: Parsed)
    requires k in TEXTS && AnalyzeString(k, SkipSpaces(val), flagged).Fine?
    requires flagged == out.(flags1 := out.flags1 + Flag1(k), flags2 := out.flags2 + Flag2(k))
    ensures Effect(k, val, out, AnalyzeString(k, SkipSpaces(val), flagged).out)
  {
    hide ParseInteger, CString, SkipSpaces, Flag1, Flag2, Flagged, ParseGps, ParseTransport;
    forall b: nat
      ensures (b in Flag1(k) <==> Flagged(k, false, b)) && (b in Flag2(k) <==> Flagged(k, true, b))
      ensures Flagged(k, false, b) ==> b !in {8, 22}
    {
      FlagsAre(k, b);
    }
    GpsIff(SkipSpaces(val), flagged);
    TransportKeeps(SkipSpaces(val), flagged);
  }

  lemma TransportKeeps(val: string, out: Parsed)
    ensures var r := ParseTransport(val, out);
            r == out.(clientLo := r.clientLo, clientHi := r.clientHi, serverLo := r.serverLo, serverHi := r.serverHi)
  {
    hide FindAttr;
  }

  lemma SoftEffect(k: nat, val: string, out: Parsed)
    requires k in SOFT || k == 30
    ensures Effect(k, val, out, if k == 30 then out else
              out.(flags1 := out.flags1 + Flag1(k) - Flag1(k), flags2 := out.flags2 + Flag2(k) - Flag2(k)))
  {
    hide ParseInteger, CString, SkipSpaces;
  }

  /** What an accepted line does to every field, told from its key and its value. */
  lemma LineEffectIs(line: string, out: Parsed)
    requires AnalyzeLine(line, out).Fine?
    ensures exists key, val :: Split(line, key, val) && Effect(GetKeyword(key), val, out, AnalyzeLine(line, out).out)
  {
    hide Split, Effect, GetKeyword, SkipSpaces, AnalyzeString, AnalyzeInteger, Flag1, Flag2;
    if forall key, val :: !Split(line, key, val) {
      Unsplit(line, out);
    } else {
      var key, val :| Split(line, key, val);
      LineParts(line, key, val, out);
      hide AnalyzeLine;
      var k := GetKeyword(key);
      var flagged := out.(flags1 := out.flags1 + Flag1(k), flags2 := out.flags2 + Flag2(k));
      if k == 30 || k in SOFT {
        SoftEffect(k, val, out);
        SoftBad(k, val, flagged);
      } else if k in TEXTS {
        NoSoftText(k, SkipSpaces(val), flagged);
        if AnalyzeString(k, SkipSpaces(val), flagged).Fine? {
          TextEffect(k, val, out, flagged);
        }
      } else {
        NoSoftNumber(k, val, flagged);
        if AnalyzeInteger(k, val, flagged).Fine? {
          NumberEffect(k, val, out, flagged);
        }
      }
      assert Effect(k, val, out, AnalyzeLine(line, out).out);
    }
  }

  lemma SoftBad(k: nat, val: string, out: Parsed)
    ensures k in SOFT ==> AnalyzeInteger(k, val, out) == Bad(-10) && !IsString(k)
  {
  }

  lemma NoSoftText(k: nat, val: string, out: Parsed)
    requires k in TEXTS
    ensures IsString(k) && AnalyzeString(k, val, out) != Bad(-10)
  {
    hide ParseGps, ParseTransport, CString;
    GpsIff(val, out);
  }

  lemma NoSoftNumber(k: nat, val: string, out: Parsed)
    requires Numeric(k)
    ensures !IsString(k) && AnalyzeInteger(k, val, out) != Bad(-10)
  {
    hide ParseInteger;
  }

  // ---------------------------------------------------------------- all lines

  ghost predicate GivesSome(line: string, k: nat)
    requires k < 30
  {
    exists v :: Gives(line, k, v)
  }

  ghost predicate CarriesSome(line: string, slot: nat) {
    exists t :: CarriesText(line, slot, t)
  }

  /** The number a line stores. */
  function Stored(k: nat, val: string): int {
    var v := ParseInteger(val);
    if v.None? then 0 else if k in SHORT then v.value % 256 else v.value
  }

  lemma GivesIff(line: string, key: string, val: string, k: nat, v: int)
    requires Split(line, key, val) && k < 30
    ensures Gives(line, k, v) <==> GetKeyword(key) == k && ParseInteger(val).Some? && v == Stored(k, val)
  {
    hide Split, Numeral, About, GetKeyword, ParseInteger;
    AboutOne(line, key, val, k, val);
    NumeralIff(val);
    forall x, n | About(line, k, x) && Numeral(x, n)
      ensures x == val && ParseInteger(val) == Some(n % WORD) && GetKeyword(key) == k
    {
      AboutOne(line, key, val, k, x);
    }
    forall n: int
      ensures n % WORD % 256 == n % 256
    {
      ByteOf(n);
    }
  }

  lemma NumberAfter(line: string, out: Parsed, k: nat)
    requires AnalyzeLine(line, out).Fine? && Numeric(k)
    ensures var r := AnalyzeLine(line, out).out;
            && (forall v | Gives(line, k, v) :: NumberField(k, r) == v)
            && (!GivesSome(line, k) ==> NumberField(k, r) == NumberField(k, out))
  {
    LineEffectIs(line, out);
    RefusedIff(line, out);
    var r := AnalyzeLine(line, out).out;
    hide AnalyzeLine, Split, Numeral, About, GetKeyword, ParseInteger, NumberField, CString, SkipSpaces, Flagged,
      GpsSays, Gives;
    var key, val :| Split(line, key, val) && Effect(GetKeyword(key), val, out, r);
    forall v
      ensures Gives(line, k, v) <==> GetKeyword(key) == k && ParseInteger(val).Some? && v == Stored(k, val)
    {
      GivesIff(line, key, val, k, v);
    }
    if GetKeyword(key) == k {
      AboutOne(line, key, val, k, val);
      NumeralIff(val);
      assert Gives(line, k, Stored(k, val));
    }
  }

  lemma ByteOf(n: int)
    ensures n % WORD % 256 == n % 256
  {
  }

  lemma TextAfter(line: string, out: Parsed, slot: nat)
    requires AnalyzeLine(line, out).Fine? && slot in {3, 8, 15, 18, 23}
    ensures var r := AnalyzeLine(line, out).out;
            && (forall t | CarriesText(line, slot, t) :: TextField(slot, r) == Some(t))
            && (!CarriesSome(line, slot) ==> TextField(slot, r) == TextField(slot, out))
  {
    LineEffectIs(line, out);
    var r := AnalyzeLine(line, out).out;
    hide AnalyzeLine, Split, About, GetKeyword, ParseInteger, NumberField, CString, SkipSpaces, Flagged, TextField,
      Slot;
    var key, val :| Split(line, key, val) && Effect(GetKeyword(key), val, out, r);
    forall t | CarriesText(line, slot, t)
      ensures TextField(slot, r) == Some(t)
    {
      var k: nat, x :| k < 30 && Slot(k) == slot && About(line, k, x) && t == CString(SkipSpaces(x));
      AboutOne(line, key, val, k, x);
    }
    var k := GetKeyword(key);
    if k < 30 && Slot(k) == slot {
      AboutOne(line, key, val, k, val);
      assert CarriesText(line, slot, CString(SkipSpaces(val)));
    }
  }

  lemma FlagAfter(line: string, out: Parsed, second: bool, b: nat)
    requires AnalyzeLine(line, out).Fine? && (second || b !in {8, 22})
    ensures var r := AnalyzeLine(line, out).out;
            b in (if second then r.flags2 else r.flags1) <==>
              b in (if second then out.flags2 else out.flags1) || Raises(line, second, b)
  {
    LineEffectIs(line, out);
    var r := AnalyzeLine(line, out).out;
    hide AnalyzeLine, Split, About, GetKeyword, ParseInteger, NumberField, CString, SkipSpaces, Flagged, TextField,
      Slot;
    var key, val :| Split(line, key, val) && Effect(GetKeyword(key), val, out, r);
    if Raises(line, second, b) {
      var k: nat, x :| k < 30 && Flagged(k, second, b) && About(line, k, x);
      AboutOne(line, key, val, k, x);
    }
    var k := GetKeyword(key);
    FlaggedKey(k, second, b);
    if Flagged(k, second, b) {
      AboutOne(line, key, val, k, val);
      assert About(line, k, val);
    }
  }

  lemma FlaggedKey(k: nat, second: bool, b: nat)
    ensures Flagged(k, second, b) ==> k < 30
  {
  }

  lemma SoftAfter(line: string, out: Parsed, b: nat)
    requires AnalyzeLine(line, out).Fine? && b in {8, 22}
    ensures b in AnalyzeLine(line, out).out.flags1 ==> b in out.flags1
    ensures var r := AnalyzeLine(line, out).out; r.kind == out.kind && r.trigger == out.trigger && r.fail == out.fail
  {
    LineEffectIs(line, out);
    hide AnalyzeLine, Split, GetKeyword, ParseInteger, NumberField, CString, SkipSpaces, Flagged, TextField, Slot;
  }

  /** All lines are accepted exactly when none is refused. */
  lemma {:induction false} AcceptedIff(lines: seq<string>, out: Parsed)
    ensures AnalyzeAll(lines, out).Fine? <==> forall i | 0 <= i < |lines| :: !Refused(lines[i])
    decreases |lines|
  {
    hide AnalyzeLine, Refused;
    if lines != [] {
      RefusedIff(lines[0], out);
      var r := AnalyzeLine(lines[0], out);
      if r.Fine? {
        AcceptedIff(lines[1..], r.out);
        assert forall i | 0 < i < |lines| :: lines[i] == lines[1..][i - 1];
        assert forall i | 0 <= i < |lines| - 1 :: lines[1..][i] == lines[i + 1];
      }
    }
  }

  /** Line `i` is the last that gives the key a number. */
  ghost predicate LastGiven(lines: seq<string>, k: nat, i: nat, v: int)
    requires k < 30
  {
    i < |lines| && Gives(lines[i], k, v) && forall j | i < j < |lines| :: !GivesSome(lines[j], k)
  }

  /** Every numeric field holds the number that the last line for its key gives. */
  lemma {:induction false} LastNumberWins(lines: seq<string>, out: Parsed, k: nat)
    requires AnalyzeAll(lines, out).Fine? && Numeric(k)
    ensures var r := AnalyzeAll(lines, out).out;
            && (forall i: nat, v | LastGiven(lines, k, i, v) :: NumberField(k, r) == v)
            && ((forall j | 0 <= j < |lines| :: !GivesSome(lines[j], k)) ==> NumberField(k, r) == NumberField(k, out))
    decreases |lines|
  {
    hide AnalyzeLine, Gives, GivesSome, NumberField;
    if lines != [] {
      NumberAfter(lines[0], out, k);
      var mid := AnalyzeLine(lines[0], out).out;
      var rest := lines[1..];
      LastNumberWins(rest, mid, k);
      var r := AnalyzeAll(lines, out).out;
      assert forall j | 0 <= j < |rest| :: rest[j] == lines[j + 1];
      assert forall j | 0 < j < |lines| :: lines[j] == rest[j - 1];
      forall i: nat, v | LastGiven(lines, k, i, v)
        ensures NumberField(k, r) == v
      {
        if i > 0 {
          assert LastGiven(rest, k, i - 1, v);
        }
      }
    }
  }

  ghost predicate LastCarried(lines: seq<string>, slot: nat, i: nat, t: string) {
    i < |lines| && CarriesText(lines[i], slot, t) && forall j | i < j < |lines| :: !CarriesSome(lines[j], slot)
  }

  /** Every text field holds what the last line for its key carries. */
  lemma {:induction false} LastTextWins(lines: seq<string>, out: Parsed, slot: nat)
    requires AnalyzeAll(lines, out).Fine? && slot in {3, 8, 15, 18, 23}
    ensures var r := AnalyzeAll(lines, out).out;
            && (forall i: nat, t | LastCarried(lines, slot, i, t) :: TextField(slot, r) == Some(t))
            && ((forall j | 0 <= j < |lines| :: !CarriesSome(lines[j], slot)) ==>
                  TextField(slot, r) == TextField(slot, out))
    decreases |lines|
  {
    hide AnalyzeLine, CarriesText, CarriesSome, TextField;
    if lines != [] {
      TextAfter(lines[0], out, slot);
      var mid := AnalyzeLine(lines[0], out).out;
      var rest := lines[1..];
      LastTextWins(rest, mid, slot);
      var r := AnalyzeAll(lines, out).out;
      assert forall j | 0 <= j < |rest| :: rest[j] == lines[j + 1];
      assert forall j | 0 < j < |lines| :: lines[j] == rest[j - 1];
      forall i: nat, t | LastCarried(lines, slot, i, t)
        ensures TextField(slot, r) == Some(t)
      {
        if i > 0 {
          assert LastCarried(rest, slot, i - 1, t);
        }
      }
    }
  }

  /** A flag is up exactly when some line is about its key; those of Codec and KaRetry never are. */
  lemma {:induction false} FlagsRaised(lines: seq<string>, out: Parsed, second: bool, b: nat)
    requires AnalyzeAll(lines, out).Fine? && (second || b !in {8, 22})
    ensures var r := AnalyzeAll(lines, out).out;
            b in (if second then r.flags2 else r.flags1) <==>
              || b in (if second then out.flags2 else out.flags1)
              || exists j | 0 <= j < |lines| :: Raises(lines[j], second, b)
    decreases |lines|
  {
    hide AnalyzeLine, Raises;
    if lines != [] {
      FlagAfter(lines[0], out, second, b);
      FlagsRaised(lines[1..], AnalyzeLine(lines[0], out).out, second, b);
      assert forall j | 0 < j < |lines| :: lines[j] == lines[1..][j - 1];
      assert forall j | 0 <= j < |lines| - 1 :: lines[1..][j] == lines[j + 1];
    }
  }

  lemma {:induction false} SoftNeverRaised(lines: seq<string>, out: Parsed, b: nat)
    requires AnalyzeAll(lines, out).Fine? && b in {8, 22}
    ensures var r := AnalyzeAll(lines, out).out;
            && (b in r.flags1 ==> b in out.flags1)
            && r.kind == out.kind && r.trigger == out.trigger && r.fail == out.fail
    decreases |lines|
  {
    hide AnalyzeLine;
    if lines != [] {
      SoftAfter(lines[0], out, b);
      SoftNeverRaised(lines[1..], AnalyzeLine(lines[0], out).out, b);
    }
  }

  // ---------------------------------------------------------------- transport

  /** Segments with semicolons between them. */
  function Semi(segs: seq<string>): string {
    if segs == [] then "" else if |segs| == 1 then segs[0] else segs[0] + [';'] + Semi(segs[1..])
  }

  predicate Segments(segs: seq<string>) {
    segs != [] && forall i | 0 <= i < |segs| :: ';' !in segs[i]
  }

  /** The segment is `name=` and a value. */
  predicate Named(seg: string, name: string) {
    name + ['='] <= seg
  }

  ghost predicate FirstNamedAt(segs: seq<string>, name: string, i: nat) {
    i < |segs| && Named(segs[i], name) && forall j | 0 <= j < i :: !Named(segs[j], name)
  }

  function RangeOf(seg: string): Attr
    requires |seg| >= 12
  {
    var r := ParseRange(seg[12..]);
    if r.None? then Malformed else Found(r.value)
  }

  lemma NamedIff(seg: string, name: string)
    requires |name| == 11
    ensures Named(seg, name) <==> |seg| >= 12 && seg[11] == '=' && seg[..11] == name
  {
    if |seg| >= 12 {
      assert seg[..12] == seg[..11] + [seg[11]];
      assert (name + ['='])[..11] == name && (name + ['='])[11] == '=';
    }
  }

  lemma FirstSegment(segs: seq<string>)
    requires Segments(segs)
    ensures var val := Semi(segs); var k := IndexOf(val, ';');
            && k == |segs[0]| && val[..k] == segs[0] && (k < |val| <==> |segs| > 1)
            && (|segs| > 1 ==> Segments(segs[1..]) && val[k + 1..] == Semi(segs[1..]))
  {
    var val := Semi(segs);
    if |segs| > 1 {
      IndexAfter(segs[0], ';', Semi(segs[1..]));
      assert forall i | 0 <= i < |segs| - 1 :: segs[1..][i] == segs[i + 1];
    } else {
      NotThere(segs[0], ';');
    }
  }

  lemma NotThere(s: string, c: char)
    requires c !in s
    ensures IndexOf(s, c) == |s|
  {
  }

  /** An attribute is the first segment of its name. */
  lemma {:induction false} AttrIs(segs: seq<string>, name: string)
    requires Segments(segs) && |name| == 11
    ensures var a := FindAttr(Semi(segs), name);
            && (forall i: nat | FirstNamedAt(segs, name, i) :: |segs[i]| >= 12 && a == RangeOf(segs[i]))
            && ((forall i | 0 <= i < |segs| :: !Named(segs[i], name)) ==> a == Absent)
    decreases |segs|
  {
    hide ParseRange, IndexOf, Semi, Named;
    FirstSegment(segs);
    NamedIff(segs[0], name);
    var val := Semi(segs);
    assert val[..|segs[0]|] == segs[0];
    if !Named(segs[0], name) && |segs| > 1 {
      var rest := segs[1..];
      AttrIs(rest, name);
      assert forall j | 0 <= j < |rest| :: rest[j] == segs[j + 1];
      forall i: nat | FirstNamedAt(segs, name, i)
        ensures i > 0 && FirstNamedAt(rest, name, i - 1)
      {
      }
    }
    if Named(segs[0], name) {
      NoneBefore(segs, name);
    }
  }

  lemma NoneBefore(segs: seq<string>, name: string)
    requires segs != [] && Named(segs[0], name)
    ensures forall i: nat | FirstNamedAt(segs, name, i) :: i == 0
  {
    hide Named;
  }

  /** What the segments say about an attribute. */
  ghost predicate AttrOf(segs: seq<string>, name: string, a: Attr) {
    || (a == Absent && forall i | 0 <= i < |segs| :: !Named(segs[i], name))
    || (exists i: nat :: FirstNamedAt(segs, name, i) && |segs[i]| >= 12 && a == RangeOf(segs[i]))
  }

  lemma {:induction false} FirstOrNone(segs: seq<string>, name: string, n: nat) returns (i: nat)
    requires n <= |segs| && forall j | 0 <= j < n :: !Named(segs[j], name)
    ensures i <= |segs| && (i < |segs| ==> FirstNamedAt(segs, name, i))
    ensures i == |segs| ==> forall j | 0 <= j < |segs| :: !Named(segs[j], name)
    decreases |segs| - n
  {
    hide Named;
    if n == |segs| || Named(segs[n], name) {
      i := n;
    } else {
      i := FirstOrNone(segs, name, n + 1);
    }
  }

  lemma AttrIff(segs: seq<string>, name: string)
    requires Segments(segs) && |name| == 11
    ensures forall a :: AttrOf(segs, name, a) <==> a == FindAttr(Semi(segs), name)
  {
    AttrIs(segs, name);
    var i := FirstOrNone(segs, name, 0);
    hide FindAttr, Semi, Named, Segments, ParseRange;
    if i < |segs| {
      assert FirstNamedAt(segs, name, i);
    }
  }

  /** The values read, as soon as the attributes are known. */
  ghost predicate RangesRead(val: string, c: Attr, d: Attr, out: Parsed, r: Parsed) {
    && (!("RTP/AVP/UDP;unicast;" <= val) || c.Malformed? ==> r == out)
    && ("RTP/AVP/UDP;unicast;" <= val && !c.Malformed? ==>
          && (r.clientLo, r.clientHi) == (if c.Found? then (c.range.lo, c.range.hi) else (out.clientLo, out.clientHi))
          && (r.serverLo, r.serverHi) == (if d.Found? then (d.range.lo, d.range.hi) else (out.serverLo, out.serverHi)))
  }

  lemma AttributesRead(val: string, out: Parsed)
    ensures RangesRead(val, FindAttr(val, "client_port"), FindAttr(val, "server_port"), out, ParseTransport(val, out))
  {
    hide FindAttr;
  }

  /**
   * Any Transport value: only one that begins as RTP over UDP unicast counts; a malformed client range makes it
   * be passed over as a whole, a malformed server range makes only that be passed over; and the line is never
   * refused.
   */
  lemma {:induction false} TransportReads(segs: seq<string>, c: Attr, d: Attr, out: Parsed)
    requires Segments(segs) && AttrOf(segs, "client_port", c) && AttrOf(segs, "server_port", d)
    ensures RangesRead(Semi(segs), c, d, out, ParseTransport(Semi(segs), out))
  {
    AttrIff(segs, "client_port");
    AttrIff(segs, "server_port");
    AttributesRead(Semi(segs), out);
    hide FindAttr, Semi, Named, Segments, AttrOf, RangesRead, ParseTransport;
  }

  // ---------------------------------------------------------------- ports

  predicate AllWhite(s: string) {
    forall i | 0 <= i < |s| :: White(s[i])
  }

  /** White space, a sign or none, at least one digit, and anything that is no digit. */
  ghost predicate ScanParts(s: string, white: string, sign: string, digits: string, tail: string) {
    && s == white + (sign + (digits + tail)) && AllWhite(white) && SignOr(sign) && AllDigits(digits) && digits != ""
    && (tail == "" || !IsDigit(tail[0]))
  }

  /** The number at the front of a text and what follows it. */
  ghost predicate Scans(s: string, v: int, tail: string) {
    exists white, sign, digits :: ScanParts(s, white, sign, digits, tail) && v == Signed(sign, digits) % WORD
  }

  lemma {:induction false} WhiteSkipped(white: string, rest: string)
    requires AllWhite(white) && (rest == "" || !White(rest[0]))
    ensures SkipWhite(white + rest) == rest
  {
    if white == "" {
      assert white + rest == rest;
    } else {
      assert (white + rest)[1..] == white[1..] + rest;
      assert White((white + rest)[0]);
      WhiteSkipped(white[1..], rest);
    }
  }

  lemma {:induction false} WhitePart(s: string) returns (white: string)
    ensures s == white + SkipWhite(s) && AllWhite(white) && (SkipWhite(s) == "" || !White(SkipWhite(s)[0]))
  {
    if s != "" && White(s[0]) {
      var w := WhitePart(s[1..]);
      white := [s[0]] + w;
      assert s == [s[0]] + s[1..];
    } else {
      white := "";
    }
  }

  lemma ScanTaken(s: string, white: string, sign: string, digits: string, tail: string)
    requires ScanParts(s, white, sign, digits, tail)
    ensures ScanInt(s) == Some(Scanned(Signed(sign, digits) % WORD, tail))
  {
    hide Value, DigitRun;
    var u := sign + (digits + tail);
    assert IsDigit(digits[0]);
    assert u[0] == if sign == "" then digits[0] else sign[0];
    WhiteSkipped(white, u);
    hide SkipWhite;
    RunOf(digits, tail);
    if sign == "" {
      assert u == digits + tail;
    } else {
      assert u[1..] == digits + tail;
    }
    assert (digits + tail)[..|digits|] == digits && (digits + tail)[|digits|..] == tail;
  }

  lemma ScanRead(s: string) returns (white: string, sign: string, digits: string, tail: string)
    requires ScanInt(s).Some?
    ensures ScanParts(s, white, sign, digits, tail)
  {
    white := WhitePart(s);
    var u := SkipWhite(s);
    hide SkipWhite;
    var rest := if Sign(u) then u[1..] else u;
    var n := DigitRun(rest);
    hide DigitRun, Value;
    sign, digits, tail := if Sign(u) then u[..1] else "", rest[..n], rest[n..];
    assert rest == digits + tail;
    if Sign(u) {
      OneLetter(u);
    } else {
      assert u == "" + rest;
    }
  }

  lemma OneLetter(u: string)
    requires Sign(u)
    ensures SignOr(u[..1]) && u == u[..1] + u[1..]
  {
  }

  /** The scanner reads exactly such a number, and keeps the low 32 bits. */
  lemma {:induction false} ScanIff(s: string, v: int, tail: string)
    ensures ScanInt(s) == Some(Scanned(v, tail)) <==> Scans(s, v, tail)
  {
    hide ScanInt, ScanParts, Value;
    if Scans(s, v, tail) {
      var white, sign, digits :| ScanParts(s, white, sign, digits, tail) && v == Signed(sign, digits) % WORD;
      ScanTaken(s, white, sign, digits, tail);
    }
    if ScanInt(s) == Some(Scanned(v, tail)) {
      var white, sign, digits, t := ScanRead(s);
      ScanTaken(s, white, sign, digits, t);
    }
  }

  lemma NoScan(s: string)
    ensures ScanInt(s).None? <==> forall v, tail :: !Scans(s, v, tail)
  {
    hide ScanInt, Scans;
    if ScanInt(s).Some? {
      ScanIff(s, ScanInt(s).value.value, ScanInt(s).value.rest);
    }
    forall v, tail | Scans(s, v, tail)
      ensures ScanInt(s).Some?
    {
      ScanIff(s, v, tail);
    }
  }

  /** Two numbers with a dash between them, or one; less than 32 characters. */
  ghost predicate RangeSays(s: string, lo: int, hi: int) {
    && |s| < 32
    && exists tail :: Scans(CString(s), lo, tail)
         && if tail != "" && tail[0] == '-' && exists v, t :: Scans(tail[1..], v, t)
            then exists t :: Scans(tail[1..], hi, t) else hi == 0
  }

  /** A port range is read exactly as its text says it. */
  lemma {:induction false} RangeIff(s: string, lo: int, hi: int)
    ensures ParseRange(s) == Some(Range(lo, hi)) <==> RangeSays(s, lo, hi)
  {
    hide ScanInt, Scans, CString;
    var t := CString(s);
    NoScan(t);
    forall v, tail
      ensures ScanInt(t) == Some(Scanned(v, tail)) <==> Scans(t, v, tail)
    {
      ScanIff(t, v, tail);
    }
    if ScanInt(t).Some? {
      var rest := ScanInt(t).value.rest;
      assert Scans(t, ScanInt(t).value.value, rest);
      if rest != "" {
        NoScan(rest[1..]);
        forall v, tail
          ensures ScanInt(rest[1..]) == Some(Scanned(v, tail)) <==> Scans(rest[1..], v, tail)
        {
          ScanIff(rest[1..], v, tail);
        }
      }
    }
  }

  // ---------------------------------------------------------------- the port of the GPS server

  const NEEDLE: string := "ServerUdpPort"
  const GAPS: set<char> := {' ', '\t', '\n', '\r', '='}

  predicate AllGaps(s: string) {
    forall i | 0 <= i < |s| :: s[i] in GAPS
  }

  /** The needle is at the end of `before` and nowhere earlier. */
  ghost predicate FoundAfter(val: string, before: string, rest: string) {
    val == before + (NEEDLE + rest) && forall i | 0 <= i < |before| :: !(NEEDLE <= val[i..])
  }

  /** Behind the needle: gaps, less than 20 characters up to a semicolon or the end, which begin with a number. */
  ghost predicate PortAfter(rest: string, port: int) {
    exists gaps, segment, more ::
      && rest == gaps + (segment + more) && AllGaps(gaps) && (segment + more == "" || (segment + more)[0] !in GAPS)
      && ';' !in segment && (more == "" || more[0] == ';') && |segment| < 20
      && (exists tail :: Scans(CString(segment), port, tail)) && 0 < port < 0x8000_0000
  }

  ghost predicate GpsSays(val: string, port: int) {
    exists before, rest :: FoundAfter(val, before, rest) && PortAfter(rest, port)
  }

  lemma {:induction false} NeedleAt(val: string, before: string, rest: string)
    requires FoundAfter(val, before, rest)
    ensures FindNeedle(val, NEEDLE) == |before|
    decreases |before|
  {
    if before == "" {
      assert val == NEEDLE + rest;
      assert val[..|NEEDLE|] == NEEDLE;
    } else {
      assert val[0..] == val && !(NEEDLE <= val[0..]);
      assert val[1..] == before[1..] + (NEEDLE + rest);
      assert forall i | 0 <= i < |before| - 1 :: val[1..][i..] == val[i + 1..];
      NeedleAt(val[1..], before[1..], rest);
    }
  }

  lemma {:induction false} NeedleFound(val: string)
    ensures var k := FindNeedle(val, NEEDLE);
            && k <= |val| && (k + |NEEDLE| <= |val| ==> FoundAfter(val, val[..k], val[k + |NEEDLE|..]))
    decreases |val|
  {
    var k := FindNeedle(val, NEEDLE);
    if |val| >= |NEEDLE| {
      if val[..|NEEDLE|] == NEEDLE {
        assert val == NEEDLE + val[|NEEDLE|..];
      } else {
        NeedleFound(val[1..]);
        if k + |NEEDLE| <= |val| {
          LaterNeedle(val, k);
        }
      }
    }
  }

  lemma LaterNeedle(val: string, k: nat)
    requires 0 < k && k + |NEEDLE| <= |val| && !(NEEDLE <= val)
    requires FoundAfter(val[1..], val[1..][..k - 1], val[1..][k - 1 + |NEEDLE|..])
    ensures FoundAfter(val, val[..k], val[k + |NEEDLE|..])
  {
    assert val[1..][k - 1 + |NEEDLE|..] == val[k + |NEEDLE|..];
    assert val == [val[0]] + val[1..] && val[..k] == [val[0]] + val[1..][..k - 1];
    forall i | 0 <= i < k
      ensures !(NEEDLE <= val[i..])
    {
      if i == 0 {
        assert val[0..] == val;
      } else {
        assert val[i..] == val[1..][i - 1..];
      }
    }
  }

  lemma {:induction false} GapsSkipped(gaps: string, rest: string)
    requires AllGaps(gaps) && (rest == "" || rest[0] !in GAPS)
    ensures SkipEquals(gaps + rest) == rest
  {
    if gaps == "" {
      assert gaps + rest == rest;
    } else {
      assert (gaps + rest)[1..] == gaps[1..] + rest;
      assert (gaps + rest)[0] in GAPS;
      GapsSkipped(gaps[1..], rest);
    }
  }

  lemma {:induction false} GapPart(s: string) returns (gaps: string)
    ensures s == gaps + SkipEquals(s) && AllGaps(gaps) && (SkipEquals(s) == "" || SkipEquals(s)[0] !in GAPS)
  {
    if s != "" && s[0] in GAPS {
      var g := GapPart(s[1..]);
      gaps := [s[0]] + g;
      assert s == [s[0]] + s[1..];
    } else {
      gaps := "";
    }
  }

  /** The port that the part behind the needle holds. */
  function PortIn(rest: string): Option<int> {
    var t := SkipEquals(rest);
    var segment := t[..IndexOf(t, ';')];
    var v := ScanInt(CString(segment));
    if |segment| >= 20 || v.None? || !(0 < v.value.value < 0x8000_0000) then None else Some(v.value.value)
  }

  lemma PortParts(rest: string, gaps: string, segment: string, more: string)
    requires rest == gaps + (segment + more) && AllGaps(gaps) && (segment + more == "" || (segment + more)[0] !in GAPS)
    requires ';' !in segment && (more == "" || more[0] == ';')
    ensures var t := SkipEquals(rest); t[..IndexOf(t, ';')] == segment
  {
    GapsSkipped(gaps, segment + more);
    var t := segment + more;
    if more == "" {
      assert t == segment;
      NotThere(segment, ';');
    } else {
      assert t == segment + [';'] + more[1..];
      IndexAfter(segment, ';', more[1..]);
    }
  }

  lemma PortIff(rest: string, port: int)
    ensures PortIn(rest) == Some(port) <==> PortAfter(rest, port)
  {
    hide ScanInt, Scans, CString, SkipEquals, IndexOf;
    var t := SkipEquals(rest);
    var k := IndexOf(t, ';');
    var s := t[..k];
    var gaps := GapPart(rest);
    NoScan(CString(s));
    forall v, tail
      ensures ScanInt(CString(s)) == Some(Scanned(v, tail)) <==> Scans(CString(s), v, tail)
    {
      ScanIff(CString(s), v, tail);
    }
    forall g, segment, more | rest == g + (segment + more) && AllGaps(g)
        && (segment + more == "" || (segment + more)[0] !in GAPS) && ';' !in segment && (more == "" || more[0] == ';')
      ensures segment == s
    {
      PortParts(rest, g, segment, more);
    }
    assert t == s + t[k..];
    assert rest == gaps + (s + t[k..]);
  }

  /** A GPS parameter is accepted exactly when it names a positive port behind the first needle. */
  lemma {:induction false} GpsSaysIff(val: string, port: int)
    ensures GpsPort(val) == Some(port) <==> GpsSays(val, port)
  {
    GpsUnfold(val);
    NeedleFound(val);
    var k := FindNeedle(val, NEEDLE);
    forall before, rest | FoundAfter(val, before, rest)
      ensures before == val[..k] && k + |NEEDLE| <= |val| && rest == val[k + |NEEDLE|..]
    {
      NeedleAt(val, before, rest);
      assert val == before + (NEEDLE + rest);
    }
    if k + |NEEDLE| <= |val| {
      PortIff(val[k + |NEEDLE|..], port);
    }
    hide FindNeedle, PortIn, PortAfter, FoundAfter, GpsPort;
  }

  lemma NoGps(val: string)
    ensures GpsPort(val).None? <==> forall port :: !GpsSays(val, port)
  {
    hide GpsPort, GpsSays;
    forall port
      ensures GpsPort(val) == Some(port) <==> GpsSays(val, port)
    {
      GpsSaysIff(val, port);
    }
    assert GpsPort(val).Some? ==> GpsSays(val, GpsPort(val).value);
  }

  lemma GpsUnfold(val: string)
    ensures var k := FindNeedle(val, NEEDLE);
            k <= |val| && GpsPort(val) == if k + |NEEDLE| > |val| then None else PortIn(val[k + |NEEDLE|..])
  {
    NeedleFound(val);
    hide FindNeedle, SkipEquals, IndexOf, ScanInt, CString;
  }
}
