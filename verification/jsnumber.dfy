/** The two number/string conversions the source relies on: `parseInt(s, 10)` and the
    decimal rendering of an integer inside a template literal. `NaN` is `None`. */
module JsNumber {
  import opened Wrappers

  /** The characters `parseInt` skips before the number: ECMAScript's WhiteSpace
      (including every Zs space separator) and LineTerminator code points. */
  const Whitespace: set<char> := {
    '\t', '\n', '\U{000B}', '\U{000C}', '\r', ' ', '\U{00A0}', '\U{1680}',
    '\U{2000}', '\U{2001}', '\U{2002}', '\U{2003}', '\U{2004}', '\U{2005}',
    '\U{2006}', '\U{2007}', '\U{2008}', '\U{2009}', '\U{200A}', '\U{2028}',
    '\U{2029}', '\U{202F}', '\U{205F}', '\U{3000}', '\U{FEFF}'
  }

  predicate IsDigit(c: char) {
    '0' <= c <= '9'
  }

  function DigitValue(c: char): nat
    requires IsDigit(c)
  {
    c as int - '0' as int
  }

  function DigitChar(d: nat): (c: char)
    requires d < 10
    ensures IsDigit(c) && DigitValue(c) == d
  {
    ('0' as int + d) as char
  }

  predicate AllDigits(s: string) {
    forall i :: 0 <= i < |s| ==> IsDigit(s[i])
  }

  /** The value of a string of decimal digits, most significant first. */
  function DigitsValue(s: string): nat
    requires AllDigits(s)
    decreases |s|
  {
    if |s| == 0 then 0 else DigitsValue(s[..|s| - 1]) * 10 + DigitValue(s[|s| - 1])
  }

  /** The decimal rendering of a natural number, without leading zeros. */
  function NatToString(n: nat): (s: string)
    ensures |s| > 0 && AllDigits(s)
    decreases n
  {
    if n < 10 then [DigitChar(n)] else NatToString(n / 10) + [DigitChar(n % 10)]
  }

  /** `${n}` for an integer-valued number. */
  function IntToString(n: int): (s: string)
    ensures |s| > 0
  {
    if n < 0 then "-" + NatToString(-n) else NatToString(n)
  }

  /** The length of the run of decimal digits at the start of `s`. */
  function DigitRun(s: string): (k: nat)
    ensures k <= |s| && AllDigits(s[..k])
    ensures k < |s| ==> !IsDigit(s[k])
    decreases |s|
  {
    if |s| > 0 && IsDigit(s[0]) then
      var k := 1 + DigitRun(s[1..]);
      assert forall i :: 1 <= i < k ==> s[..k][i] == s[1..][..k - 1][i - 1];
      k
    else 0
  }

  /** `s` with its leading `parseInt` whitespace removed. */
  function TrimStart(s: string): (r: string)
    ensures |r| <= |s| && s[|s| - |r|..] == r
    ensures |r| > 0 ==> r[0] !in Whitespace
    decreases |s|
  {
    if |s| > 0 && s[0] in Whitespace then TrimStart(s[1..]) else s
  }

  /** `parseInt(s, 10)`: optional leading whitespace, an optional sign, then the longest
      run of decimal digits; `None` (NaN) when that run is empty. */
  function ParseInt(s: string): Option<int> {
    var t := TrimStart(s);
    var negative := |t| > 0 && t[0] == '-';
    var body := if |t| > 0 && (t[0] == '-' || t[0] == '+') then t[1..] else t;
    var k := DigitRun(body);
    var magnitude: int := if k == 0 then 0 else DigitsValue(body[..k]);
    if k == 0 then None
    else if negative then Some(-magnitude)
    else Some(magnitude)
  }

  /** `parseInt` applied to an optional value: `parseInt(undefined, 10)` is NaN. */
  function ParseIntOpt(s: Option<string>): Option<int> {
    match s
    case None => None
    case Some(v) => ParseInt(v)
  }

  lemma {:induction false} DigitsValueOfNatToString(n: nat)
    ensures DigitsValue(NatToString(n)) == n
    decreases n
  {
    var s := NatToString(n);
    if n >= 10 {
      DigitsValueOfNatToString(n / 10);
      assert s[..|s| - 1] == NatToString(n / 10);
    }
  }

  /** The digit run of a digit string followed by a non-digit (or nothing) is that string. */
  lemma {:induction false} DigitRunOfDigits(d: string, rest: string)
    requires AllDigits(d)
    requires |rest| > 0 ==> !IsDigit(rest[0])
    ensures DigitRun(d + rest) == |d|
    ensures (d + rest)[..|d|] == d
    decreases |d|
  {
    if |d| > 0 {
      assert (d + rest)[1..] == d[1..] + rest;
      DigitRunOfDigits(d[1..], rest);
    } else {
      assert d + rest == rest;
    }
  }

  /** Reading back a rendered integer, even with a non-digit suffix such as `", s-maxage=…"`,
      yields the integer: `parseInt(`${n}` + rest, 10) === n`. */
  lemma ParseIntOfIntToString(n: int, rest: string)
    requires |rest| > 0 ==> !IsDigit(rest[0])
    ensures ParseInt(IntToString(n) + rest) == Some(n)
  {
    var m: nat := if n < 0 then -n else n;
    var d := NatToString(m);
    DigitsValueOfNatToString(m);
    DigitRunOfDigits(d, rest);
    var s := IntToString(n) + rest;
    var body := d + rest;
    if n < 0 {
      assert s == "-" + body;
      NotWhitespace(s[0]);
      assert TrimStart(s) == s;
      assert s[1..] == body;
    } else {
      assert s == body;
      assert IsDigit(s[0]);
      NotWhitespace(s[0]);
      assert TrimStart(s) == s;
    }
    ParseIntOfBody(s, n < 0, body, |d|, m);
  }

  /** `ParseInt` once the whitespace, the sign and the digit run of `s` are known. */
  lemma ParseIntOfBody(s: string, negative: bool, body: string, k: nat, m: nat)
    requires TrimStart(s) == s
    requires negative ==> s == "-" + body
    requires !negative ==> s == body && (|s| > 0 ==> s[0] != '-' && s[0] != '+')
    requires 0 < k && DigitRun(body) == k && DigitsValue(body[..k]) == m
    ensures ParseInt(s) == Some(if negative then -(m as int) else m as int)
  {
    if negative {
      assert s[1..] == body;
    }
  }

  /** Signs and digits are not whitespace, so `parseInt` starts reading at them. */
  lemma NotWhitespace(c: char)
    requires c == '-' || c == '+' || IsDigit(c)
    ensures c !in Whitespace
  {
  }

  /** Distinct natural numbers render differently. */
  lemma NatToStringInjective(a: nat, b: nat)
    requires NatToString(a) == NatToString(b)
    ensures a == b
  {
    DigitsValueOfNatToString(a);
    DigitsValueOfNatToString(b);
  }
}
