/** The text of the DMSDP control plane (src/proto/dmsdp.c): numbers, lines, keywords, ports. */
module DmsdpText {
  import opened Bytes

  const WORD: int := 0x1_0000_0000

  // ---------------------------------------------------------------- numbers

  function Digit(d: nat): char
    requires d < 10
  {
    '0' + d as char
  }

  predicate IsDigit(c: char) {
    '0' <= c <= '9'
  }

  /** `%u`. */
  function Dec(n: nat): string {
    if n < 10 then [Digit(n)] else Dec(n / 10) + [Digit(n % 10)]
  }

  /** The value of a string of digits. */
  function Value(s: string): int {
    if s == [] then 0 else Value(s[..|s| - 1]) * 10 + (s[|s| - 1] as int - '0' as int)
  }

  predicate AllDigits(s: string) {
    forall i | 0 <= i < |s| :: IsDigit(s[i])
  }

  lemma {:induction false} DecRoundTrip(n: nat)
    ensures Dec(n) != [] && AllDigits(Dec(n)) && Value(Dec(n)) == n
  {
    if n >= 10 {
      DecRoundTrip(n / 10);
      var s := Dec(n);
      assert s[..|s| - 1] == Dec(n / 10);
    }
  }

  function Pow10(k: nat): nat {
    if k == 0 then 1 else 10 * Pow10(k - 1)
  }

  lemma {:induction false} DecSize(n: nat, k: nat)
    requires n < Pow10(k) && k > 0
    ensures |Dec(n)| <= k
  {
    if n >= 10 && k > 1 {
      DecSize(n / 10, k - 1);
    }
  }

  lemma DecSize32(n: nat)
    requires n < WORD
    ensures 1 <= |Dec(n)| <= 10
  {
    assert Pow10(10) == 10 * 10 * Pow10(8) && Pow10(8) == 10000 * Pow10(4) && Pow10(4) == 10000;
    DecSize(n, 10);
    DecRoundTrip(n);
  }

  function SkipSpaces(s: string): string {
    if s != [] && s[0] == ' ' then SkipSpaces(s[1..]) else s
  }

  predicate Sign(s: string) {
    s != [] && (s[0] == '+' || s[0] == '-')
  }

  /** The integer of a header value: spaces, a sign slot, digits; None is the parser's -1 or -9. */
  function ParseInteger(s: string): Option<int> {
    if |s| > 16 then None
    else
      var t := CString(s);
      var u := SkipSpaces(t);
      var digits := if Sign(u) then u[1..] else u;
      if t == [] || (Sign(u) && |t| == 1) || !AllDigits(digits) then None
      else Some((if Sign(u) && u[0] == '-' then -Value(digits) else Value(digits)) % WORD)
  }

  /** A copy into a zeroed buffer read back as a C string. */
  function CString(s: string): string {
    if s == [] || s[0] == 0 as char then [] else [s[0]] + CString(s[1..])
  }

  lemma {:induction false} CStringId(s: string)
    requires 0 as char !in s
    ensures CString(s) == s
  {
    if s != [] {
      CStringId(s[1..]);
    }
  }

  lemma {:induction false} ParseDec(n: nat)
    requires n < WORD
    ensures ParseInteger(" " + Dec(n)) == Some(n)
  {
    hide Dec;
    DecRoundTrip(n);
    DecSize32(n);
    ParseDigits(Dec(n));
  }

  /** The space after the colon may be missing. */
  lemma {:induction false} ParseBare(n: nat)
    requires n < WORD
    ensures ParseInteger(Dec(n)) == Some(n)
  {
    hide Dec, Value, CString;
    DecRoundTrip(n);
    DecSize32(n);
    NoNul(Dec(n));
    CStringId(Dec(n));
    assert IsDigit(Dec(n)[0]);
    assert SkipSpaces(Dec(n)) == Dec(n) && !Sign(Dec(n));
  }

  lemma ParseDigits(d: string)
    requires 1 <= |d| <= 15 && AllDigits(d)
    ensures ParseInteger(" " + d) == Some(Value(d) % WORD)
  {
    hide Value, CString;
    var s := " " + d;
    NoNul(d);
    CStringId(s);
    assert s[1..] == d && IsDigit(d[0]);
    assert SkipSpaces(d) == d;
    assert SkipSpaces(s) == SkipSpaces(s[1..]);
    assert !Sign(d);
  }

  lemma NoNul(d: string)
    requires AllDigits(d)
    ensures 0 as char !in d && ';' !in d && '\r' !in d && ' ' !in d
  {
  }

  // ---------------------------------------------------------------- ports

  datatype Scanned = Scanned(value: int, rest: string)

  /** The longest run of digits at the front. */
  function DigitRun(s: string): (n: nat)
    ensures n <= |s| && AllDigits(s[..n]) && (n < |s| ==> !IsDigit(s[n]))
  {
    if s == [] || !IsDigit(s[0]) then 0
    else
      var n := DigitRun(s[1..]);
      assert s[..n + 1] == [s[0]] + s[1..][..n];
      n + 1
  }

  predicate White(c: char) {
    c == ' ' || (9 as char <= c <= 13 as char)
  }

  function SkipWhite(s: string): string {
    if s != [] && White(s[0]) then SkipWhite(s[1..]) else s
  }

  /** `%d`, keeping the low 32 bits. */
  function ScanInt(s: string): Option<Scanned> {
    var u := SkipWhite(s);
    var digits := if Sign(u) then u[1..] else u;
    var n := DigitRun(digits);
    if n == 0 then None
    else Some(Scanned((if Sign(u) && u[0] == '-' then -Value(digits[..n]) else Value(digits[..n])) % WORD, digits[n..]))
  }

  datatype Range = Range(lo: int, hi: int)

  function ParseRange(s: string): Option<Range> {
    if |s| >= 32 then None
    else
      var a := ScanInt(CString(s));
      if a.None? then None
      else if a.value.rest == [] || a.value.rest[0] != '-' then Some(Range(a.value.value, 0))
      else
        var b := ScanInt(a.value.rest[1..]);
        Some(Range(a.value.value, if b.Some? then b.value.value else 0))
  }

  lemma ScanDec(n: nat, rest: string)
    requires n < WORD && (rest == [] || !IsDigit(rest[0]))
    ensures ScanInt(Dec(n) + rest) == Some(Scanned(n, rest))
  {
    hide Dec, Value, DigitRun, SkipWhite;
    DecRoundTrip(n);
    DigitFirst(Dec(n));
    var s := Dec(n) + rest;
    assert s[0] == Dec(n)[0];
    NotWhite(s);
    RunOf(Dec(n), rest);
    assert s[..|Dec(n)|] == Dec(n) && s[|Dec(n)|..] == rest;
  }

  lemma DigitFirst(d: string)
    requires d != [] && AllDigits(d)
    ensures IsDigit(d[0])
  {
  }

  lemma NotWhite(s: string)
    requires s != [] && IsDigit(s[0])
    ensures SkipWhite(s) == s && !Sign(s)
  {
  }

  lemma {:induction false} RunOf(d: string, rest: string)
    requires AllDigits(d) && (rest == [] || !IsDigit(rest[0]))
    ensures DigitRun(d + rest) == |d|
  {
    if d == [] {
      assert d + rest == rest;
    } else {
      assert (d + rest)[1..] == d[1..] + rest;
      RunOf(d[1..], rest);
    }
  }

  lemma {:induction false} RangeRoundTrip(lo: nat, hi: nat)
    requires lo < WORD && hi < WORD
    ensures ParseRange(Dec(lo) + "-" + Dec(hi)) == Some(Range(lo, hi))
    ensures forall c | c in Dec(lo) + "-" + Dec(hi) :: c != ';'
  {
    hide Dec, ScanInt, CString, AllDigits;
    DecSize32(lo);
    DecSize32(hi);
    DecRoundTrip(lo);
    DecRoundTrip(hi);
    NoNul(Dec(lo));
    NoNul(Dec(hi));
    var s := Dec(lo) + "-" + Dec(hi);
    CStringId(s);
    var tail := "-" + Dec(hi);
    assert s == Dec(lo) + tail && tail[0] == '-' && !IsDigit('-');
    ScanDec(lo, tail);
    assert tail[1..] == Dec(hi) && Dec(hi) + [] == Dec(hi);
    ScanDec(hi, []);
  }

  // ---------------------------------------------------------------- separators

  /** The position of the first `c`, or the length. */
  function IndexOf(s: string, c: char): (n: nat)
    ensures n <= |s| && (n < |s| ==> s[n] == c) && forall i | 0 <= i < n :: s[i] != c
  {
    if s == [] || s[0] == c then 0 else 1 + IndexOf(s[1..], c)
  }

  lemma IndexAfter(a: string, c: char, b: string)
    requires c !in a
    ensures IndexOf(a + [c] + b, c) == |a|
  {
    var s := a + [c] + b;
    assert s[|a|] == c;
    assert forall i | 0 <= i < |a| :: s[i] == a[i];
  }

  predicate CrlfAt(s: string, i: nat) {
    i + 1 < |s| && s[i] == '\r' && s[i + 1] == '\n'
  }

  ghost predicate HasCrlf(s: string) {
    exists i: nat :: CrlfAt(s, i)
  }

  /** The position of the first CRLF, or the length. */
  function Crlf(s: string): (n: nat)
    ensures n <= |s| && (n < |s| ==> CrlfAt(s, n)) && forall i: nat | i < n :: !CrlfAt(s, i)
  {
    if s == [] || CrlfAt(s, 0) then 0
    else
      var n := Crlf(s[1..]);
      assert forall i: nat | 0 < i < n + 1 :: CrlfAt(s, i) ==> CrlfAt(s[1..], i - 1);
      assert n < |s[1..]| ==> CrlfAt(s[1..], n) && CrlfAt(s, n + 1);
      n + 1
  }

  /** A line without CRLF ends at the CRLF written after it, even when it ends in CR. */
  lemma {:induction false} CrlfAfter(line: string, rest: string)
    requires !HasCrlf(line)
    ensures Crlf(line + "\r\n" + rest) == |line|
  {
    var s := line + "\r\n" + rest;
    assert s[|line|] == '\r' && s[|line| + 1] == '\n';
    assert CrlfAt(s, |line|);
    forall i: nat | i < |line|
      ensures !CrlfAt(s, i)
    {
      assert s[i] == line[i];
      if i + 1 < |line| {
        assert s[i + 1] == line[i + 1];
        assert !CrlfAt(line, i);
      }
    }
  }

  lemma NoCrlfPrefix(s: string)
    ensures !HasCrlf(s[..Crlf(s)])
  {
    var k := Crlf(s);
    if HasCrlf(s[..k]) {
      var i: nat :| CrlfAt(s[..k], i);
      assert CrlfAt(s, i);
    }
  }
}
