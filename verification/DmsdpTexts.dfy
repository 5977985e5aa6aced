/**
 * Which texts the DMSDP parser accepts, and what it then holds: a first line it knows, header lines none of which
 * is refused, and a body that fits the length they announce.
 */
module DmsdpTexts {
  import opened Bytes
  import opened DmsdpText
  import opened Dmsdp
  import opened DmsdpRoundTrip
  import opened DmsdpGrammar

  // ---------------------------------------------------------------- lines and what follows them

  /** Lines, each ended by CRLF. */
  function Lined(lines: seq<string>): string {
    if lines == [] then "" else lines[0] + "\r\n" + Lined(lines[1..])
  }

  /** Nothing, a blank line and a body, or a last line without its CRLF. */
  ghost predicate Tail(tail: string) {
    tail == "" || "\r\n" <= tail || !HasCrlf(tail)
  }

  ghost predicate Shaped(s: string, lines: seq<string>, tail: string) {
    && s == Lined(lines) + tail && Tail(tail)
    && forall i | 0 <= i < |lines| :: lines[i] != "" && !HasCrlf(lines[i])
  }

  function LastLine(tail: string): seq<string> {
    if tail == "" || "\r\n" <= tail then [] else [tail]
  }

  function Body(tail: string): string {
    if "\r\n" <= tail then tail[2..] else ""
  }

  lemma CrlfAtFront(s: string)
    ensures Crlf(s) == 0 <==> s == "" || "\r\n" <= s
  {
    if "\r\n" <= s {
      assert s[0] == "\r\n"[0] && s[1] == "\r\n"[1];
    }
    if s != "" && Crlf(s) == 0 {
      assert CrlfAt(s, 0);
      assert s[..2] == "\r\n";
    }
  }

  lemma NoCrlfAtAll(s: string)
    ensures Crlf(s) == |s| <==> !HasCrlf(s)
  {
    if HasCrlf(s) {
      var i: nat :| CrlfAt(s, i);
    }
  }

  /** Every text has that shape. */
  lemma {:induction false} ShapeOf(s: string) returns (lines: seq<string>, tail: string)
    ensures Shaped(s, lines, tail)
    decreases |s|
  {
    var k := Crlf(s);
    CrlfAtFront(s);
    NoCrlfAtAll(s);
    if k == 0 || k == |s| {
      lines, tail := [], s;
      assert s == "" + tail;
    } else {
      var more;
      more, tail := ShapeOf(s[k + 2..]);
      NoCrlfPrefix(s);
      CutThere(s, k);
      ShapeMore(s, s[..k], s[k + 2..], more, tail);
      lines := [s[..k]] + more;
    }
  }

  lemma ShapeMore(s: string, line: string, rest: string, more: seq<string>, tail: string)
    requires s == line + "\r\n" + rest && Shaped(rest, more, tail) && line != "" && !HasCrlf(line)
    ensures Shaped(s, [line] + more, tail)
  {
    hide HasCrlf;
    var lines := [line] + more;
    assert lines[1..] == more;
    assert Lined(lines) == line + "\r\n" + Lined(more);
    assert s == line + "\r\n" + (Lined(more) + tail);
    assert forall i | 0 < i < |lines| :: lines[i] == more[i - 1];
  }

  lemma CutThere(s: string, k: nat)
    requires CrlfAt(s, k)
    ensures k + 2 <= |s| && s == s[..k] + "\r\n" + s[k + 2..]
  {
    assert s[k..k + 2] == "\r\n";
  }

  /** The headers of a text of that shape: its lines in order, and the body after the blank line. */
  lemma {:induction false} HeadersOf(s: string, lines: seq<string>, tail: string, out: Parsed)
    requires Shaped(s, lines, tail)
    ensures var all := AnalyzeAll(lines, out);
            ParseHeaders(s, out)
            == if all.Bad? then Broken(all.code)
               else if LastLine(tail) == [] then Headers.Ended(all.out, Body(tail))
               else if |tail| < 2 then Broken(-2)
               else match AnalyzeLine(tail, all.out) case Fine(r) => Headers.Ended(r, "") case Bad(code) => Broken(code)
    decreases |lines|
  {
    hide AnalyzeLine, HasCrlf;
    if lines == [] {
      assert s == tail;
      CrlfAtFront(s);
      NoCrlfAtAll(s);
      hide Crlf;
      if s != "" {
        HeaderStep(s, out);
      }
    } else {
      var rest := Lined(lines[1..]) + tail;
      assert s == lines[0] + "\r\n" + rest;
      CrlfAfter(lines[0], rest);
      hide Crlf, ParseHeaders;
      HeaderStep(s, out);
      assert s[..|lines[0]|] == lines[0] && s[|lines[0]| + 2..] == rest;
      var r := AnalyzeLine(lines[0], out);
      if r.Fine? {
        HeadersOf(rest, lines[1..], tail, r.out);
      }
    }
  }

  /** The first line: one of the eight methods, or a status line with at most 12 characters after the version. */
  ghost predicate Starts(line: string, kind: nat, fail: bool) {
    || (kind < 8 && line == MethodLine(kind) && !fail)
    || (kind == 8 && exists digits, reason ::
          StatusLine(line, digits, reason) && (fail <==> Value(digits) % WORD != 200))
  }

  ghost predicate StatusLine(line: string, digits: string, reason: string) {
    && line == "DMSDP/1.0 " + (digits + (" " + reason)) && digits != "" && AllDigits(digits)
    && |digits| + 1 + |reason| <= 12
  }

  lemma {:induction false} FoundMethod(line: string, i: nat)
    requires i <= 8
    ensures FindMethod(line, i).None? <==> forall k | i <= k < 8 :: line != MethodLine(k)
    ensures var m := FindMethod(line, i); m.Some? ==> i <= m.value < 8 && line == MethodLine(m.value)
    decreases 8 - i
  {
    hide MethodLine;
    if i < 8 && line != MethodLine(i) {
      FoundMethod(line, i + 1);
    }
  }

  /** No status line is a method line: those begin with a word. */
  lemma NotBoth(line: string, kind: nat, digits: string, reason: string)
    requires kind < 8 && StatusLine(line, digits, reason)
    ensures line != MethodLine(kind)
  {
    assert line[..1] == "D" && MethodLine(kind)[0] in "OSPTGR";
    assert line[0] == line[..1][0];
  }

  lemma {:induction false} MethodsApart(j: nat, k: nat)
    requires j < 8 && k < 8 && MethodLine(j) == MethodLine(k)
    ensures j == k
  {
    hide MethodLine;
    if j < k {
      MethodsDiffer(j, k);
    } else if k < j {
      MethodsDiffer(k, j);
    }
  }

  lemma PlainNumber(digits: string)
    requires digits != "" && AllDigits(digits) && |digits| <= 12
    ensures ParseInteger(digits) == Some(Value(digits) % WORD)
  {
    NoNul(digits);
    CStringId(digits);
    hide Value, CString;
    assert IsDigit(digits[0]);
    assert SkipSpaces(digits) == digits && !Sign(digits);
  }

  lemma StatusParts(line: string, digits: string, reason: string)
    requires StatusLine(line, digits, reason)
    ensures |line| >= 10 && line[..10] == "DMSDP/1.0 " && line[10..] == digits + (" " + reason)
    ensures DigitRun(line[10..]) == |digits| && line[10..10 + |digits|] == digits && line[10 + |digits|] == ' '
  {
    RunOf(digits, " " + reason);
    assert line[10..] == digits + (" " + reason);
    assert line[10..10 + |digits|] == line[10..][..|digits|] == digits;
    assert line[10 + |digits|] == line[10..][|digits|];
  }

  lemma StatusOf(line: string)
    requires |line| >= 10 && line[..10] == "DMSDP/1.0 " && |line| - 10 <= 12
    requires var d := DigitRun(line[10..]); d > 0 && 10 + d < |line| && line[10 + d] == ' '
    ensures var d := DigitRun(line[10..]); StatusLine(line, line[10..10 + d], line[10 + d + 1..])
  {
    var d := DigitRun(line[10..]);
    hide DigitRun;
    var digits, reason := line[10..10 + d], line[10 + d + 1..];
    assert digits == line[10..][..d];
    assert line[10 + d..] == " " + reason;
    assert line == line[..10] + (digits + line[10 + d..]);
  }

  lemma StartTaken(line: string, kind: nat, fail: bool)
    requires Starts(line, kind, fail)
    ensures ParseStart(line) == Some(EMPTY.(kind := kind, fail := fail))
  {
    hide MethodLine, FindMethod, DigitRun, ParseInteger, StatusLine, Value;
    if kind < 8 {
      FoundMethod(line, 0);
      MethodsApart(kind, FindMethod(line, 0).value);
    } else {
      var digits, reason :| StatusLine(line, digits, reason) && (fail <==> Value(digits) % WORD != 200);
      StatusTaken(line, digits, reason);
    }
  }

  lemma StartRead(line: string, p: Parsed)
    requires ParseStart(line) == Some(p)
    ensures Starts(line, p.kind, p.fail) && p == EMPTY.(kind := p.kind, fail := p.fail)
  {
    FoundMethod(line, 0);
    hide MethodLine, FindMethod, DigitRun, ParseInteger, StatusLine, Value;
    if FindMethod(line, 0).None? {
      StatusOf(line);
      var d := DigitRun(line[10..]);
      StatusTaken(line, line[10..10 + d], line[10 + d + 1..]);
    }
  }

  /** The parser takes exactly these first lines. */
  lemma {:induction false} StartIff(line: string, p: Parsed)
    ensures ParseStart(line) == Some(p) <==> Starts(line, p.kind, p.fail) && p == EMPTY.(kind := p.kind, fail := p.fail)
  {
    hide ParseStart, Starts;
    if ParseStart(line) == Some(p) {
      StartRead(line, p);
    }
    if Starts(line, p.kind, p.fail) {
      StartTaken(line, p.kind, p.fail);
    }
  }

  lemma StatusTaken(line: string, digits: string, reason: string)
    requires StatusLine(line, digits, reason)
    ensures ParseStart(line) == Some(EMPTY.(kind := 8, fail := Value(digits) % WORD != 200))
  {
    StatusParts(line, digits, reason);
    PlainNumber(digits);
    FoundMethod(line, 0);
    forall k | 0 <= k < 8
      ensures line != MethodLine(k)
    {
      NotBoth(line, k, digits, reason);
    }
    hide MethodLine, FindMethod, DigitRun, ParseInteger, Value;
  }

  // ---------------------------------------------------------------- what is accepted

  /** A first line, header lines, and what follows them. */
  ghost predicate Taken(text: string, first: string, lines: seq<string>, tail: string) {
    text == first + "\r\n" + (Lined(lines) + tail) && !HasCrlf(first) && Shaped(Lined(lines) + tail, lines, tail)
  }

  /** The header lines of the text, a last one without CRLF included. */
  function Heads(lines: seq<string>, tail: string): seq<string> {
    lines + LastLine(tail)
  }

  lemma {:induction false} AnalyzeSnoc(lines: seq<string>, line: string, out: Parsed)
    ensures AnalyzeAll(lines + [line], out)
            == var all := AnalyzeAll(lines, out); if all.Bad? then all else AnalyzeLine(line, all.out)
    decreases |lines|
  {
    hide AnalyzeLine;
    if lines == [] {
      assert (lines + [line])[1..] == [];
    } else {
      assert (lines + [line])[1..] == lines[1..] + [line];
      var r := AnalyzeLine(lines[0], out);
      if r.Fine? {
        AnalyzeSnoc(lines[1..], line, r.out);
      }
    }
  }

  /** The parser on a text taken apart: the fields are those of its header lines. */
  lemma ParseOf(text: string, first: string, lines: seq<string>, tail: string)
    requires Taken(text, first, lines, tail)
    ensures var start := ParseStart(first);
            Parse(text)
            == if start.None? then Failure(-2)
               else
                 var all := AnalyzeAll(lines, start.value);
                 if all.Bad? then Failure(all.code)
                 else if LastLine(tail) != [] && |tail| < 2 then Failure(-2)
                 else
                   match AnalyzeAll(Heads(lines, tail), start.value)
                   case Fine(r) => CheckBody(r, Body(tail))
                   case Bad(code) => Failure(code)
  {
    var rest := Lined(lines) + tail;
    CrlfAfter(first, rest);
    assert text[..|first|] == first && text[|first| + 2..] == rest;
    hide Crlf, ParseStart, ParseHeaders, AnalyzeLine, CheckBody, HasCrlf, AnalyzeAll;
    var start := ParseStart(first);
    if start.Some? {
      HeadersOf(rest, lines, tail, start.value);
      if LastLine(tail) == [] {
        assert Heads(lines, tail) == lines;
      } else {
        AnalyzeSnoc(lines, tail, start.value);
      }
    }
  }

  lemma TextOf(text: string) returns (first: string, lines: seq<string>, tail: string)
    requires HasCrlf(text)
    ensures Taken(text, first, lines, tail)
  {
    var k := Crlf(text);
    NoCrlfAtAll(text);
    NoCrlfPrefix(text);
    CutThere(text, k);
    first := text[..k];
    lines, tail := ShapeOf(text[k + 2..]);
  }

  lemma NoFirstLine(text: string)
    requires !HasCrlf(text)
    ensures Parse(text) == Failure(-2)
  {
    NoCrlfAtAll(text);
    hide ParseStart, ParseHeaders;
  }

  /** The Content-Length the lines give, 0 when none does. */
  ghost predicate Announces(heads: seq<string>, n: int) {
    || (exists i: nat :: LastGiven(heads, 1, i, n))
    || (n == 0 && forall j | 0 <= j < |heads| :: !GivesSome(heads[j], 1))
  }

  /** An announced body is one of the five triggers and as long as announced. */
  predicate BodyFits(body: string, n: int) {
    n == 0 || (|body| == n && exists t | 1 <= t <= 5 :: body == TriggerBody(t))
  }

  ghost predicate Accepted(first: string, lines: seq<string>, tail: string) {
    var heads := Heads(lines, tail);
    && (exists kind, fail :: Starts(first, kind, fail))
    && (forall i | 0 <= i < |heads| :: !Refused(heads[i])) && (LastLine(tail) != [] ==> |tail| >= 2)
    && (exists n :: Announces(heads, n) && BodyFits(Body(tail), n))
  }

  lemma {:induction false} TriggerFound(body: string, i: nat)
    requires 1 <= i <= 6
    ensures FindTrigger(body, i).Some? <==> exists t | i <= t <= 5 :: body == TriggerBody(t)
    decreases 6 - i
  {
    hide TriggerBody;
    if i < 6 && body != TriggerBody(i) {
      TriggerFound(body, i + 1);
    }
  }

  lemma BodyIff(r: Parsed, body: string)
    requires r.contentLength >= 0
    ensures CheckBody(r, body).Success? <==> BodyFits(body, r.contentLength)
  {
    TriggerFound(body, 1);
    hide TriggerBody, FindTrigger;
  }

  lemma GivenBefore(heads: seq<string>, k: nat, n: nat) returns (i: nat, v: int)
    requires k < 30 && n <= |heads| && (forall j | n <= j < |heads| :: !GivesSome(heads[j], k))
    requires exists j | 0 <= j < n :: GivesSome(heads[j], k)
    ensures LastGiven(heads, k, i, v)
    decreases n
  {
    hide Gives;
    if GivesSome(heads[n - 1], k) {
      i := n - 1;
      v :| Gives(heads[i], k, v);
    } else {
      i, v := GivenBefore(heads, k, n - 1);
    }
  }

  /** The length announced is the field that the lines leave. */
  lemma AnnouncedIs(heads: seq<string>, start: Parsed)
    requires AnalyzeAll(heads, start).Fine? && start.contentLength == 0
    ensures var r := AnalyzeAll(heads, start).out;
            r.contentLength >= 0 && forall n :: Announces(heads, n) <==> n == r.contentLength
  {
    LastNumberWins(heads, start, 1);
    var r := AnalyzeAll(heads, start).out;
    hide AnalyzeAll, GivesSome;
    assert NumberField(1, r) == r.contentLength && NumberField(1, start) == 0;
    if exists j | 0 <= j < |heads| :: GivesSome(heads[j], 1) {
      var i, v := GivenBefore(heads, 1, |heads|);
      assert r.contentLength == v;
      GivenIsWord(heads[i], v);
      forall n | Announces(heads, n)
        ensures n == v
      {
        assert forall k: nat :: LastGiven(heads, 1, k, n) ==> NumberField(1, r) == n;
      }
    }
  }

  lemma GivenIsWord(line: string, v: int)
    requires Gives(line, 1, v)
    ensures v >= 0
  {
    hide About, Numeral;
  }

  lemma {:induction false} AllThenPart(lines: seq<string>, more: seq<string>, out: Parsed)
    ensures AnalyzeAll(lines + more, out).Fine? ==> AnalyzeAll(lines, out).Fine?
    decreases |lines|
  {
    hide AnalyzeLine;
    if lines != [] {
      assert (lines + more)[1..] == lines[1..] + more;
      var r := AnalyzeLine(lines[0], out);
      if r.Fine? {
        AllThenPart(lines[1..], more, r.out);
      }
    }
  }

  lemma TakenIff(text: string, first: string, lines: seq<string>, tail: string)
    requires Taken(text, first, lines, tail)
    ensures Parse(text).Success? <==> Accepted(first, lines, tail)
    ensures Parse(text).Success? ==>
              var start := ParseStart(first); var heads := Heads(lines, tail);
              && start.Some? && AnalyzeAll(heads, start.value).Fine?
              && Parse(text).out == AnalyzeAll(heads, start.value).out.(trigger := Parse(text).out.trigger)
  {
    ParseOf(text, first, lines, tail);
    var start := ParseStart(first);
    var heads := Heads(lines, tail);
    StartSome(first);
    if start.Some? {
      AcceptedIff(heads, start.value);
      AllThenPart(lines, LastLine(tail), start.value);
      if AnalyzeAll(heads, start.value).Fine? {
        AnnouncedIs(heads, start.value);
        BodyIff(AnalyzeAll(heads, start.value).out, Body(tail));
        BodyKeeps(AnalyzeAll(heads, start.value).out, Body(tail));
      }
    }
    hide Parse, ParseStart, AnalyzeAll, CheckBody, Refused, Starts, Announces, BodyFits, Taken, LastLine, Heads;
  }

  lemma BodyKeeps(r: Parsed, body: string)
    ensures CheckBody(r, body).Success? ==> CheckBody(r, body).out == r.(trigger := CheckBody(r, body).out.trigger)
  {
    hide FindTrigger;
  }

  lemma StartSome(first: string)
    ensures ParseStart(first).Some? <==> exists kind, fail :: Starts(first, kind, fail)
    ensures ParseStart(first).Some? ==> ParseStart(first).value.contentLength == 0
  {
    hide ParseStart, Starts;
    forall kind, fail | Starts(first, kind, fail)
      ensures ParseStart(first).Some?
    {
      StartTaken(first, kind, fail);
    }
    if ParseStart(first).Some? {
      StartRead(first, ParseStart(first).value);
    }
  }

  /**
   * Every text: it is parsed if and only if it is a first line the parser knows, header lines none of which is
   * refused, and a body that fits the length they announce.
   */
  lemma {:induction false} ParseIff(text: string)
    ensures Parse(text).Success? <==>
              exists first, lines, tail :: Taken(text, first, lines, tail) && Accepted(first, lines, tail)
  {
    hide Parse, Taken, Accepted, HasCrlf;
    forall first, lines, tail | Taken(text, first, lines, tail)
      ensures Parse(text).Success? <==> Accepted(first, lines, tail)
    {
      TakenIff(text, first, lines, tail);
    }
    if HasCrlf(text) {
      var first, lines, tail := TextOf(text);
    } else {
      NoFirstLine(text);
      forall first, lines, tail
        ensures !Taken(text, first, lines, tail)
      {
        NotTaken(text, first, lines, tail);
      }
    }
  }

  lemma NotTaken(text: string, first: string, lines: seq<string>, tail: string)
    requires !HasCrlf(text)
    ensures !Taken(text, first, lines, tail)
  {
    if text == first + "\r\n" + (Lined(lines) + tail) {
      assert text[|first|] == '\r' && text[|first| + 1] == '\n';
      assert CrlfAt(text, |first|);
    }
  }

  /** What accepted header lines leave. */
  ghost predicate Holds(heads: seq<string>, p: Parsed) {
    && (forall k: nat, i: nat, v | Numeric(k) && LastGiven(heads, k, i, v) :: NumberField(k, p) == v)
    && (forall slot, i: nat, t | slot in {3, 8, 15, 18, 23} && LastCarried(heads, slot, i, t) ::
          TextField(slot, p) == Some(t))
    && (forall b: nat | b !in {8, 22} :: b in p.flags1 <==> exists j | 0 <= j < |heads| :: Raises(heads[j], false, b))
    && (forall b: nat :: b in p.flags2 <==> exists j | 0 <= j < |heads| :: Raises(heads[j], true, b))
    && 8 !in p.flags1 && 22 !in p.flags1
  }

  lemma HeadsHold(heads: seq<string>, start: Parsed)
    requires AnalyzeAll(heads, start).Fine? && start.flags1 == {} && start.flags2 == {}
    ensures Holds(heads, AnalyzeAll(heads, start).out)
  {
    var r := AnalyzeAll(heads, start).out;
    hide AnalyzeAll, LastGiven, LastCarried, Raises, NumberField, TextField;
    forall k: nat, i: nat, v | Numeric(k) && LastGiven(heads, k, i, v)
      ensures NumberField(k, r) == v
    {
      LastNumberWins(heads, start, k);
    }
    forall slot, i: nat, t | slot in {3, 8, 15, 18, 23} && LastCarried(heads, slot, i, t)
      ensures TextField(slot, r) == Some(t)
    {
      LastTextWins(heads, start, slot);
    }
    forall b: nat
      ensures b !in {8, 22} ==> (b in r.flags1 <==> exists j | 0 <= j < |heads| :: Raises(heads[j], false, b))
      ensures b in r.flags2 <==> exists j | 0 <= j < |heads| :: Raises(heads[j], true, b)
    {
      if b !in {8, 22} {
        FlagsRaised(heads, start, false, b);
      }
      FlagsRaised(heads, start, true, b);
    }
    SoftNeverRaised(heads, start, 8);
    SoftNeverRaised(heads, start, 22);
  }

  lemma SameHeld(heads: seq<string>, p: Parsed, q: Parsed)
    requires Holds(heads, p) && q == p.(trigger := q.trigger)
    ensures Holds(heads, q)
  {
    hide LastGiven, LastCarried, Raises;
  }

  lemma NamedTrigger(r: Parsed, body: string)
    requires CheckBody(r, body).Success? && r.trigger == 0 && r.contentLength >= 0
    ensures var t := CheckBody(r, body).out.trigger;
            if r.contentLength == 0 then t == 0 else 1 <= t <= 5 && body == TriggerBody(t)
  {
    hide TriggerBody;
    WhichTrigger(body, 1);
  }

  lemma {:induction false} WhichTrigger(body: string, i: nat)
    requires 1 <= i <= 6
    ensures FindTrigger(body, i).Some? ==> i <= FindTrigger(body, i).value <= 5
                                            && body == TriggerBody(FindTrigger(body, i).value)
    decreases 6 - i
  {
    hide TriggerBody;
    if i < 6 && body != TriggerBody(i) {
      WhichTrigger(body, i + 1);
    }
  }

  /**
   * What a parsed text holds: its kind from the first line, every number and every text from the last header line
   * that has one for it, every flag from the lines there are, and the trigger that its body names.
   */
  lemma {:induction false} ParsedHolds(text: string, first: string, lines: seq<string>, tail: string)
    requires Parse(text).Success? && Taken(text, first, lines, tail)
    ensures var p := Parse(text).out;
            && Starts(first, p.kind, p.fail) && Holds(Heads(lines, tail), p)
            && if p.contentLength == 0 then p.trigger == 0
               else 1 <= p.trigger <= 5 && Body(tail) == TriggerBody(p.trigger)
  {
    TakenIff(text, first, lines, tail);
    ParseOf(text, first, lines, tail);
    var heads := Heads(lines, tail);
    var start := ParseStart(first).value;
    var r := AnalyzeAll(heads, start).out;
    hide Parse, Taken, AnalyzeAll, Heads, ParseStart, Starts, Holds, Body, TriggerBody, CheckBody;
    StartRead(first, start);
    HeadsHold(heads, start);
    SameHeld(heads, r, Parse(text).out);
    SoftNeverRaised(heads, start, 8);
    AnnouncedIs(heads, start);
    NamedTrigger(r, Body(tail));
  }

  // ---------------------------------------------------------------- what is built

  /** The bytes of lines with their CRLFs and of the blank line. */
  function Size(lines: seq<string>): nat {
    if lines == [] then 2 else |lines[0]| + 2 + Size(lines[1..])
  }

  lemma {:induction false} JoinedSize(lines: seq<string>)
    ensures |Joined(lines)| == Size(lines)
    decreases |lines|
  {
    if lines != [] {
      JoinedSize(lines[1..]);
    }
  }

  /**
   * A message is built if and only if its kind is known, a reply says 200, the texts its flags ask for are there,
   * and first line, header lines and blank line take less than 1400 bytes and no more than the room given.
   */
  lemma {:induction false} BuiltIff(m: Dmsdp.Msg, cap: nat)
    ensures Build(m, cap).Some? <==>
              && m.kind <= 8 && (m.kind == 8 ==> m.status == 200)
              && (10 in m.flags1 ==> m.serviceId.Some?) && (3 in m.flags1 ==> m.cryptoAlg.Some?)
              && |StartLine(m.kind)| + 2 + Size(Lines(m)) < 1400 && |StartLine(m.kind)| + 2 + Size(Lines(m)) <= cap
  {
    JoinedSize(Lines(m));
    hide Lines, StartLine, Joined, Size;
  }
}
