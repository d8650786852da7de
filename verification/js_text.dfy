/** String operations of JavaScript that the client relies on:
    `String.prototype.trim`, the decimal rendering of an integral number and
    the parsing of a decimal integer. */
module JsText {

  import opened Optional

  /** The characters `trim` removes: WhiteSpace and LineTerminator of
      ECMA-262 (sections 12.2 and 12.3), including U+FEFF and the Unicode
      space separators. */
  predicate IsJsSpace(c: char) {
    || c == '\t' || c == '\n' || c == '\U{B}' || c == '\U{C}' || c == '\r' || c == ' '
    || c == '\U{A0}' || c == '\U{1680}' || ('\U{2000}' <= c <= '\U{200A}')
    || c == '\U{2028}' || c == '\U{2029}' || c == '\U{202F}' || c == '\U{205F}'
    || c == '\U{3000}' || c == '\U{FEFF}'
  }

  predicate AllSpace(s: string) {
    forall i :: 0 <= i < |s| ==> IsJsSpace(s[i])
  }

  /** Number of whitespace characters at the front of `s`. */
  function LeadingSpaces(s: string): (k: nat)
    ensures k <= |s|
    ensures AllSpace(s[..k])
    ensures k < |s| ==> !IsJsSpace(s[k])
  {
    if |s| == 0 || !IsJsSpace(s[0]) then 0
    else
      var k := 1 + LeadingSpaces(s[1..]);
      assert forall i :: 1 <= i < k ==> s[..k][i] == s[1..][..k - 1][i - 1];
      k
  }

  /** Number of whitespace characters at the end of `s`. */
  function TrailingSpaces(s: string): (k: nat)
    ensures k <= |s|
    ensures AllSpace(s[|s| - k..])
    ensures k < |s| ==> !IsJsSpace(s[|s| - 1 - k])
  {
    if |s| == 0 || !IsJsSpace(s[|s| - 1]) then 0
    else
      var k := 1 + TrailingSpaces(s[..|s| - 1]);
      assert s[|s| - k..] == s[..|s| - 1][|s| - k..] + [s[|s| - 1]];
      k
  }

  /** `r` is `s` with the all-whitespace prefix `s[..a]` and an
      all-whitespace suffix removed. */
  ghost predicate TrimmedAt(s: string, r: string, a: int) {
    && 0 <= a <= |s| - |r|
    && r == s[a..a + |r|]
    && AllSpace(s[..a])
    && AllSpace(s[a + |r|..])
  }

  /** `s` without its leading whitespace. */
  function TrimStart(s: string): (r: string)
    ensures |r| <= |s| && r == s[|s| - |r|..]
    ensures AllSpace(s[..|s| - |r|])
    ensures r != "" ==> !IsJsSpace(r[0])
  {
    s[LeadingSpaces(s)..]
  }

  /** `s` without its trailing whitespace. */
  function TrimEnd(s: string): (r: string)
    ensures |r| <= |s| && r == s[..|r|]
    ensures AllSpace(s[|r|..])
    ensures r != "" ==> !IsJsSpace(r[|r| - 1])
  {
    s[..|s| - TrailingSpaces(s)]
  }

  lemma AllSpaceConcat(p: string, q: string)
    requires AllSpace(p) && AllSpace(q)
    ensures AllSpace(p + q)
  {
    assert forall i :: |p| <= i < |p + q| ==> (p + q)[i] == q[i - |p|];
  }

  /** `String.prototype.trim`. */
  function Trim(s: string): (r: string)
    ensures r == "" <==> AllSpace(s)
    ensures r != "" ==> !IsJsSpace(r[0]) && !IsJsSpace(r[|r| - 1])
    ensures exists a :: TrimmedAt(s, r, a)
  {
    var t := TrimStart(s);
    TrimHalves(s, t, TrimEnd(t));
    TrimEnd(t)
  }

  /** Trimming the front and then the back of `s` leaves a whitespace-free
      core located at `|s| - |t|`. */
  lemma TrimHalves(s: string, t: string, r: string)
    requires t == TrimStart(s) && r == TrimEnd(t)
    ensures r == "" <==> AllSpace(s)
    ensures r != "" ==> !IsJsSpace(r[0]) && !IsJsSpace(r[|r| - 1])
    ensures TrimmedAt(s, r, |s| - |t|)
  {
    var a := |s| - |t|;
    TrimHalvesPlace(s, t, r);
    if r == "" {
      AllSpaceConcat(s[..a], s[a..]);
      assert s == s[..a] + s[a..];
    } else {
      assert r[0] == s[a];
    }
  }

  /** Where the trimmed core sits in `s`. */
  lemma TrimHalvesPlace(s: string, t: string, r: string)
    requires t == TrimStart(s) && r == TrimEnd(t)
    ensures TrimmedAt(s, r, |s| - |t|)
    ensures s[|s| - |t|..] == t
  {
    var a := |s| - |t|;
    assert s[a..a + |r|] == t[..|r|];
    assert s[a + |r|..] == t[|r|..];
  }

  /** Trimming a string that has no surrounding whitespace changes nothing. */
  lemma TrimKeepsTrimmed(s: string)
    requires s == "" || (!IsJsSpace(s[0]) && !IsJsSpace(s[|s| - 1]))
    ensures Trim(s) == s
  {
    if s != "" {
      assert LeadingSpaces(s) == 0;
      assert s[0..] == s;
      assert TrailingSpaces(s) == 0;
    }
  }

  /** Trimming twice is trimming once. */
  lemma TrimIdempotent(s: string)
    ensures Trim(Trim(s)) == Trim(s)
  {
    TrimKeepsTrimmed(Trim(s));
  }

  predicate IsDigit(c: char) {
    '0' <= c <= '9'
  }

  predicate AllDigits(s: string) {
    forall i :: 0 <= i < |s| ==> IsDigit(s[i])
  }

  function DigitChar(d: nat): (c: char)
    requires d < 10
    ensures IsDigit(c)
  {
    ('0' as int + d) as char
  }

  function DigitValue(c: char): (d: nat)
    requires IsDigit(c)
    ensures d < 10
  {
    c as int - '0' as int
  }

  /** Decimal digits of `n`, most significant first, without leading zeros. */
  function NatToDecimal(n: nat): (r: string)
    ensures |r| >= 1 && AllDigits(r)
    ensures r[0] == '0' ==> n == 0
    decreases n
  {
    if n < 10 then [DigitChar(n)] else NatToDecimal(n / 10) + [DigitChar(n % 10)]
  }

  /** The number a string of decimal digits denotes. */
  function DecimalValue(s: string): nat
    requires AllDigits(s)
    decreases |s|
  {
    if s == "" then 0 else 10 * DecimalValue(s[..|s| - 1]) + DigitValue(s[|s| - 1])
  }

  lemma {:induction false} DecimalRoundTrip(n: nat)
    ensures DecimalValue(NatToDecimal(n)) == n
  {
    if n >= 10 {
      var r := NatToDecimal(n);
      assert r[..|r| - 1] == NatToDecimal(n / 10);
      DecimalRoundTrip(n / 10);
    }
  }

  /** `Number.prototype.toString()` of an integral number. */
  function IntToDecimal(n: int): (r: string)
    ensures r != "" && !IsJsSpace(r[0]) && !IsJsSpace(r[|r| - 1])
  {
    if n < 0 then "-" + NatToDecimal(-n) else NatToDecimal(n)
  }

  /** The StringNumericLiteral forms `digits`, `+digits` and `-digits`; any
      other text yields None. */
  function ParseInteger(t: string): Option<int> {
    if t != "" && AllDigits(t) then Some(DecimalValue(t))
    else if |t| >= 2 && (t[0] == '+' || t[0] == '-') && AllDigits(t[1..]) then
      var v: int := DecimalValue(t[1..]);
      Some(if t[0] == '-' then -v else v)
    else None
  }

  /** Parsing the rendering of an integer gives the integer back. */
  lemma IntToDecimalRoundTrip(n: int)
    ensures ParseInteger(IntToDecimal(n)) == Some(n)
  {
    var t := IntToDecimal(n);
    if n < 0 {
      var d := NatToDecimal(-n);
      assert t == "-" + d;
      assert t[1..] == d;
      assert !IsDigit(t[0]);
      DecimalRoundTrip(-n);
      assert DecimalValue(t[1..]) == -n;
    } else {
      DecimalRoundTrip(n);
    }
  }
}
