/** The parts of JavaScript's string semantics that the build-card code relies
    on: white space as `trim` and `parseFloat` see it, `startsWith`,
    `endsWith`, `includes`, `replace` with a string pattern, global removal of
    one character, and the decimal rendering of integers (`String(n)`). */
module JsString {

  /** ASCII decimal digit, the only characters `\d` and `parseInt` accept. */
  predicate IsDigit(c: char) {
    '0' <= c <= '9'
  }

  predicate AllDigits(s: string) {
    forall i :: 0 <= i < |s| ==> IsDigit(s[i])
  }

  /** White space and line terminators in the sense of ECMAScript
      (`WhiteSpace` and `LineTerminator`, including every space separator). */
  predicate IsWhiteSpace(c: char) {
    c == '\t' || c == '\n' || c == '\U{B}' || c == '\U{C}' || c == '\r' ||
    c == ' ' || c == '\U{A0}' || c == '\U{1680}' || ('\U{2000}' <= c <= '\U{200A}') ||
    c == '\U{2028}' || c == '\U{2029}' || c == '\U{202F}' || c == '\U{205F}' ||
    c == '\U{3000}' || c == '\U{FEFF}'
  }

  /** `s.trimStart()` */
  function TrimStart(s: string): (r: string)
    ensures |r| <= |s| && r == s[|s| - |r|..]
    ensures |r| > 0 ==> !IsWhiteSpace(r[0])
    ensures forall i :: 0 <= i < |s| - |r| ==> IsWhiteSpace(s[i])
  {
    if |s| > 0 && IsWhiteSpace(s[0]) then TrimStart(s[1..]) else s
  }

  /** `s.trimEnd()` */
  function TrimEnd(s: string): (r: string)
    ensures |r| <= |s| && r == s[..|r|]
    ensures |r| > 0 ==> !IsWhiteSpace(r[|r| - 1])
    ensures forall i :: |r| <= i < |s| ==> IsWhiteSpace(s[i])
  {
    if |s| > 0 && IsWhiteSpace(s[|s| - 1]) then TrimEnd(s[..|s| - 1]) else s
  }

  /** `s.trim()` */
  function Trim(s: string): string {
    TrimEnd(TrimStart(s))
  }

  /** A string is blank, `s.trim() === ''`, exactly when every character is white space. */
  lemma TrimEmptyIffBlank(s: string)
    ensures Trim(s) == "" <==> forall i :: 0 <= i < |s| ==> IsWhiteSpace(s[i])
  {
  }

  /** `s.startsWith(p)` */
  predicate StartsWith(s: string, p: string) {
    |p| <= |s| && s[..|p|] == p
  }

  /** `s.endsWith(p)` */
  predicate EndsWith(s: string, p: string) {
    |p| <= |s| && s[|s| - |p|..] == p
  }

  /** `s.includes(p)` */
  predicate Includes(s: string, p: string)
    decreases |s|
  {
    StartsWith(s, p) || (|s| > |p| && Includes(s[1..], p))
  }

  /** Every character of an included string occurs in the including one. */
  lemma {:induction false} IncludesChars(s: string, p: string, c: char)
    requires Includes(s, p) && c in p
    ensures c in s
    decreases |s|
  {
    if StartsWith(s, p) {
      assert c in s[..|p|];
    } else {
      IncludesChars(s[1..], p, c);
    }
  }

  /** A suffix is included. */
  lemma {:induction false} EndsWithIncludes(s: string, p: string)
    requires EndsWith(s, p)
    ensures Includes(s, p)
    decreases |s|
  {
    if |s| > |p| {
      assert s[1..][|s[1..]| - |p|..] == s[|s| - |p|..];
      EndsWithIncludes(s[1..], p);
    } else {
      assert s[..|p|] == s;
    }
  }

  /** `s.replace(pat, rep)` with a string pattern: only the first occurrence
      is replaced; an empty pattern matches at the start. */
  function ReplaceFirst(s: string, pat: string, rep: string): string
    decreases |s|
  {
    if StartsWith(s, pat) then rep + s[|pat|..]
    else if |s| <= |pat| then s
    else [s[0]] + ReplaceFirst(s[1..], pat, rep)
  }

  /** Replacing a one-character pattern that does not occur changes nothing. */
  lemma {:induction false} ReplaceFirstAbsent(s: string, c: char, rep: string)
    requires c !in s
    ensures ReplaceFirst(s, [c], rep) == s
    decreases |s|
  {
    if |s| > 0 {
      assert s[..1][0] == s[0] != c;
    }
    if |s| > 1 {
      ReplaceFirstAbsent(s[1..], c, rep);
      assert [s[0]] + s[1..] == s;
    }
  }

  /** Removing the first `c` from `x + [c]` gives `x` back when `x` has no `c`. */
  lemma {:induction false} ReplaceFirstTrailing(x: string, c: char)
    requires c !in x
    ensures ReplaceFirst(x + [c], [c], "") == x
    decreases |x|
  {
    if |x| > 0 {
      assert (x + [c])[1..] == x[1..] + [c];
      ReplaceFirstTrailing(x[1..], c);
      assert [x[0]] + x[1..] == x;
    }
  }

  /** Removing the first `p` from `x + p` gives `x` back when `x` does not
      contain the first character of `p`. */
  lemma {:induction false} ReplaceFirstSuffix(x: string, p: string)
    requires |p| > 0 && p[0] !in x
    ensures ReplaceFirst(x + p, p, "") == x
    decreases |x|
  {
    if |x| > 0 {
      assert (x + p)[0] == x[0] != p[0];
      assert (x + p)[1..] == x[1..] + p;
      ReplaceFirstSuffix(x[1..], p);
      assert [x[0]] + x[1..] == x;
    } else {
      assert x + p == p && p[|p|..] == "";
    }
  }

  /** `s.replace(/c/g, '')`: every occurrence of `c` removed, order kept. */
  function RemoveAll(s: string, c: char): (r: string)
    ensures c !in r
    ensures |r| <= |s|
  {
    if |s| == 0 then ""
    else if s[|s| - 1] == c then RemoveAll(s[..|s| - 1], c)
    else RemoveAll(s[..|s| - 1], c) + [s[|s| - 1]]
  }

  lemma {:induction false} RemoveAllAppend(s: string, t: string, c: char)
    ensures RemoveAll(s + t, c) == RemoveAll(s, c) + RemoveAll(t, c)
    decreases |t|
  {
    if |t| > 0 {
      assert (s + t)[..|s + t| - 1] == s + t[..|t| - 1];
      RemoveAllAppend(s, t[..|t| - 1], c);
    } else {
      assert s + t == s;
    }
  }

  function DigitChar(d: nat): (c: char)
    requires d < 10
    ensures IsDigit(c)
  {
    "0123456789"[d]
  }

  function DigitValue(c: char): (d: nat)
    requires IsDigit(c)
    ensures d < 10
  {
    (c as int - '0' as int) as nat
  }

  lemma DigitRoundTrip(d: nat)
    requires d < 10
    ensures DigitValue(DigitChar(d)) == d
  {
  }

  /** Decimal rendering of a natural number, without leading zeros. */
  function NatToString(n: nat): (r: string)
    ensures |r| > 0 && AllDigits(r)
  {
    if n < 10 then [DigitChar(n)] else NatToString(n / 10) + [DigitChar(n % 10)]
  }

  /** `String(i)` for an integer `i`. */
  function IntToString(i: int): (r: string)
    ensures |r| > 0
    ensures i < 0 <==> r[0] == '-'
    ensures forall k :: 0 < k < |r| ==> IsDigit(r[k])
  {
    if i < 0 then "-" + NatToString(-i) else NatToString(i)
  }

  /** The value of a string of decimal digits (`parseInt(ds, 10)`). */
  function DigitsValue(ds: string): nat
    requires AllDigits(ds)
  {
    if |ds| == 0 then 0
    else DigitsValue(ds[..|ds| - 1]) * 10 + DigitValue(ds[|ds| - 1])
  }

  /** Reading back a rendered natural number gives the number. */
  lemma {:induction false} NatToStringRoundTrip(n: nat)
    ensures DigitsValue(NatToString(n)) == n
  {
    var s := NatToString(n);
    if n >= 10 {
      NatToStringRoundTrip(n / 10);
      assert s[..|s| - 1] == NatToString(n / 10);
      DigitRoundTrip(n % 10);
    } else {
      DigitRoundTrip(n);
    }
  }

  /** The longest prefix of `s` made of decimal digits. */
  function LeadingDigits(s: string): (r: string)
    ensures |r| <= |s| && r == s[..|r|] && AllDigits(r)
    ensures |r| < |s| ==> !IsDigit(s[|r|])
  {
    if |s| > 0 && IsDigit(s[0]) then [s[0]] + LeadingDigits(s[1..]) else ""
  }

  /** A digit string followed by a non-digit is exactly the leading digits. */
  lemma {:induction false} LeadingDigitsOf(d: string, rest: string)
    requires AllDigits(d)
    requires |rest| > 0 ==> !IsDigit(rest[0])
    ensures LeadingDigits(d + rest) == d
    decreases |d|
  {
    if |d| > 0 {
      assert (d + rest)[1..] == d[1..] + rest;
      LeadingDigitsOf(d[1..], rest);
      assert [d[0]] + d[1..] == d;
    }
  }
}
