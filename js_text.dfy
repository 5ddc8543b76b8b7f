/**
 * The JavaScript string built-ins the dashboard relies on: `String.prototype.trim`,
 * `toLowerCase`/`toUpperCase` (on ASCII letters) and the conversion of an integer
 * to its decimal text in a template literal.
 */
module JsText {
  import opened Wrappers

  // ---------------------------------------------------------------------------
  // trim

  /** The code points of ECMAScript WhiteSpace and LineTerminator, the set `trim` removes. */
  const JsSpaceCodes: set<int> := {
    // WhiteSpace: TAB, VT, FF, SPACE, NO-BREAK SPACE, ZERO WIDTH NO-BREAK SPACE
    0x9, 0xB, 0xC, 0x20, 0xA0, 0xFEFF,
    // LineTerminator: LF, CR, LINE SEPARATOR, PARAGRAPH SEPARATOR
    0xA, 0xD, 0x2028, 0x2029,
    // the rest of Unicode category Zs
    0x1680, 0x2000, 0x2001, 0x2002, 0x2003, 0x2004, 0x2005, 0x2006, 0x2007, 0x2008, 0x2009, 0x200A,
    0x202F, 0x205F, 0x3000
  }

  predicate IsJsSpace(c: char) {
    c as int in JsSpaceCodes
  }

  ghost predicate AllSpace(s: string) {
    forall i :: 0 <= i < |s| ==> IsJsSpace(s[i])
  }

  /** The index of the first character at or after `i` that is not white space (`|s|` if none). */
  function SkipSpace(s: string, i: nat): (k: nat)
    requires i <= |s|
    ensures i <= k <= |s|
    ensures forall j :: i <= j < k ==> IsJsSpace(s[j])
    ensures k < |s| ==> !IsJsSpace(s[k])
    decreases |s| - i
  {
    if i == |s| || !IsJsSpace(s[i]) then i else SkipSpace(s, i + 1)
  }

  /** The end of `s[lo..hi]` once its trailing white space is dropped. */
  function SkipSpaceBack(s: string, lo: nat, hi: nat): (e: nat)
    requires lo <= hi <= |s|
    ensures lo <= e <= hi
    ensures forall j :: e <= j < hi ==> IsJsSpace(s[j])
    ensures e > lo ==> !IsJsSpace(s[e - 1])
  {
    if hi == lo || !IsJsSpace(s[hi - 1]) then hi else SkipSpaceBack(s, lo, hi - 1)
  }

  /** `String.prototype.trim`: white space removed from both ends. */
  function Trim(s: string): (r: string)
    ensures |r| <= |s|
    ensures r == [] || (!IsJsSpace(r[0]) && !IsJsSpace(r[|r| - 1]))
  {
    var start := SkipSpace(s, 0);
    s[start..SkipSpaceBack(s, start, |s|)]
  }

  /** What `trim` keeps: an infix of `s` such that everything cut off on either side is white space. */
  lemma TrimIsInfix(s: string)
    ensures var k := SkipSpace(s, 0);
      && k + |Trim(s)| <= |s| && Trim(s) == s[k..k + |Trim(s)|]
      && (forall j :: 0 <= j < k ==> IsJsSpace(s[j]))
      && (forall j :: k + |Trim(s)| <= j < |s| ==> IsJsSpace(s[j]))
  {
    var k := SkipSpace(s, 0);
    assert Trim(s) == s[k..k + |Trim(s)|];
  }

  /** `trim` yields the empty string exactly when the input is all white space. */
  lemma TrimEmptyIffAllSpace(s: string)
    ensures Trim(s) == [] <==> AllSpace(s)
  {
    var k := SkipSpace(s, 0);
    if Trim(s) == [] {
      assert k == |s|;
    }
  }

  lemma TrimIdempotent(s: string)
    ensures Trim(Trim(s)) == Trim(s)
  {
    var r := Trim(s);
    if r != [] {
      assert SkipSpace(r, 0) == 0;
      assert SkipSpaceBack(r, 0, |r|) == |r|;
    }
  }

  // ---------------------------------------------------------------------------
  // toLowerCase / toUpperCase on ASCII

  predicate IsUpper(c: char) { 'A' <= c <= 'Z' }
  predicate IsLower(c: char) { 'a' <= c <= 'z' }

  function LowerChar(c: char): (d: char)
    ensures !IsUpper(d)
    ensures IsUpper(c) ==> IsLower(d) && d as int == c as int + 32
    ensures !IsUpper(c) ==> d == c
  {
    if IsUpper(c) then (c as int + 32) as char else c
  }

  function UpperChar(c: char): (d: char)
    ensures !IsLower(d)
    ensures IsLower(c) ==> IsUpper(d) && d as int == c as int - 32
    ensures !IsLower(c) ==> d == c
  {
    if IsLower(c) then (c as int - 32) as char else c
  }

  /** `toLowerCase`, restricted to ASCII letters: every character is lowered in place. */
  function ToLower(s: string): (r: string)
    ensures |r| == |s|
    ensures forall i :: 0 <= i < |s| ==> r[i] == LowerChar(s[i])
  {
    seq(|s|, i requires 0 <= i < |s| => LowerChar(s[i]))
  }

  /** `toUpperCase`, restricted to ASCII letters. */
  function ToUpper(s: string): (r: string)
    ensures |r| == |s|
    ensures forall i :: 0 <= i < |s| ==> r[i] == UpperChar(s[i])
  {
    seq(|s|, i requires 0 <= i < |s| => UpperChar(s[i]))
  }

  lemma ToLowerIdempotent(s: string)
    ensures ToLower(ToLower(s)) == ToLower(s)
  {
  }

  /** Lowering is a case-insensitive key: strings that differ only in ASCII case lower alike. */
  lemma ToLowerIgnoresCase(s: string, t: string)
    requires |s| == |t|
    requires forall i :: 0 <= i < |s| ==> LowerChar(s[i]) == LowerChar(t[i])
    ensures ToLower(s) == ToLower(t)
  {
  }

  // ---------------------------------------------------------------------------
  // suffixes

  predicate EndsWith(s: string, suffix: string) {
    |suffix| <= |s| && s[|s| - |suffix|..] == suffix
  }

  /** Whether `a + b` ends with a suffix no longer than `b` depends on `b` alone. */
  lemma EndsWithAppend(a: string, b: string, suffix: string)
    requires |suffix| <= |b|
    ensures EndsWith(a + b, suffix) <==> EndsWith(b, suffix)
  {
    assert (a + b)[|a + b| - |suffix|..] == b[|b| - |suffix|..];
  }

  /** A string that ends with `suffix` agrees with it `k` characters from the end. */
  lemma EndsWithAt(s: string, suffix: string, k: nat)
    requires 0 < k <= |suffix|
    ensures EndsWith(s, suffix) ==> s[|s| - k] == suffix[|suffix| - k]
  {
    if EndsWith(s, suffix) {
      assert s[|s| - k] == s[|s| - |suffix|..][|suffix| - k];
    }
  }

  // ---------------------------------------------------------------------------
  // integers in template literals

  predicate IsDigit(c: char) { '0' <= c <= '9' }

  function DigitChar(d: nat): (c: char)
    requires d < 10
    ensures IsDigit(c)
  {
    ('0' as int + d) as char
  }

  function DigitValue(c: char): (d: nat)
    requires IsDigit(c)
    ensures d < 10 && DigitChar(d) == c
  {
    c as int - '0' as int
  }

  /** The decimal text of a natural number, without leading zeros. */
  function NatToString(n: nat): (s: string)
    ensures |s| > 0 && forall i :: 0 <= i < |s| ==> IsDigit(s[i])
    ensures s[0] == '0' ==> n == 0
  {
    if n < 10 then [DigitChar(n)] else NatToString(n / 10) + [DigitChar(n % 10)]
  }

  /** The text JavaScript gives an integer-valued number: a minus sign, then the digits of its magnitude. */
  function IntToString(i: int): (s: string)
    ensures |s| > 0
  {
    if i < 0 then "-" + NatToString(-i) else NatToString(i)
  }

  /** Reads back a string of decimal digits. */
  function ParseDigits(s: string): (n: nat)
    requires forall i :: 0 <= i < |s| ==> IsDigit(s[i])
  {
    if s == [] then 0 else 10 * ParseDigits(s[..|s| - 1]) + DigitValue(s[|s| - 1])
  }

  /** Digits as JavaScript writes a magnitude: at least one, and no leading zero unless it is "0". */
  predicate IsCanonicalDigits(s: string) {
    && |s| > 0
    && (forall i :: 0 <= i < |s| ==> IsDigit(s[i]))
    && (s[0] != '0' || |s| == 1)
  }

  /**
   * Reads back the text JavaScript gives an integer: canonical digits, optionally after
   * a minus sign that is not followed by a zero; None for anything else.
   */
  function ParseInt(s: string): (r: Option<int>)
  {
    if |s| > 1 && s[0] == '-' && IsCanonicalDigits(s[1..]) && s[1] != '0' then Some(-(ParseDigits(s[1..]) as int))
    else if IsCanonicalDigits(s) then Some(ParseDigits(s))
    else None
  }

  lemma {:induction false} ParseNatToString(n: nat)
    ensures ParseDigits(NatToString(n)) == n
  {
    if n >= 10 {
      var s := NatToString(n);
      ParseNatToString(n / 10);
      assert s[..|s| - 1] == NatToString(n / 10);
    }
  }

  /** Canonical digits are the decimal text of the number they denote. */
  lemma {:induction false} NatToStringParse(s: string)
    requires IsCanonicalDigits(s)
    ensures NatToString(ParseDigits(s)) == s
  {
    if |s| > 1 {
      var p := s[..|s| - 1];
      assert p[0] == s[0];
      NatToStringParse(p);
      var n := ParseDigits(s);
      assert n == 10 * ParseDigits(p) + DigitValue(s[|s| - 1]);
      assert NatToString(0) == "0";
      assert ParseDigits(p) != 0;
      assert n / 10 == ParseDigits(p) && n % 10 == DigitValue(s[|s| - 1]);
      assert s == p + [s[|s| - 1]];
    }
  }

  /** Decimal text is a faithful encoding: parsing it gives the integer back. */
  lemma IntToStringRoundTrip(i: int)
    ensures ParseInt(IntToString(i)) == Some(i)
  {
    var s := IntToString(i);
    if i < 0 {
      ParseNatToString(-i);
      assert s[1..] == NatToString(-i);
    } else {
      ParseNatToString(i);
    }
  }

  /** The only text that reads back as an integer is the text JavaScript gives it. */
  lemma ParseIntCanonical(s: string)
    ensures ParseInt(s).Some? ==> IntToString(ParseInt(s).value) == s
  {
    if |s| > 1 && s[0] == '-' && IsCanonicalDigits(s[1..]) && s[1] != '0' {
      NatToStringParse(s[1..]);
      assert ParseDigits(s[1..]) != 0;
      assert s == "-" + s[1..];
    } else if IsCanonicalDigits(s) {
      NatToStringParse(s);
    }
  }

  lemma IntToStringInjective(i: int, j: int)
    ensures IntToString(i) == IntToString(j) ==> i == j
  {
    IntToStringRoundTrip(i);
    IntToStringRoundTrip(j);
  }
}
