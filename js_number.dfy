/** JavaScript number operations the source uses, on exact reals:
    `Math.round`, `Number.prototype.toFixed(1)` (as a value and as text),
    `parseFloat` and decimal `parseInt`.  Binary floating point is not
    modelled: every value is the exact decimal the source means. */
module JsNumber {
  import opened Wrappers
  import opened JsString

  function Pow10(n: nat): (r: nat)
    ensures r >= 1
  {
    if n == 0 then 1 else 10 * Pow10(n - 1)
  }

  /** `Math.round(x)`: the nearest integer, halves rounded towards +infinity. */
  function MathRound(x: real): (r: int)
    ensures r as real - 0.5 <= x < r as real + 0.5
  {
    (x + 0.5).Floor
  }

  /** The number of tenths `toFixed(1)` keeps: |x| rounded to tenths with
      halves away from zero (the sign is handled before rounding). */
  function Tenths(x: real): (n: int)
    ensures x >= 0.0 ==> n >= 0 && n as real - 0.5 <= 10.0 * x < n as real + 0.5
    ensures x < 0.0 ==> n <= 0 && n as real - 0.5 < 10.0 * x <= n as real + 0.5
  {
    if x < 0.0 then -((-10.0 * x + 0.5).Floor) else (10.0 * x + 0.5).Floor
  }

  /** `parseFloat(x.toFixed(1))`: x rounded to one decimal. */
  function ToFixed1(x: real): (r: real)
    ensures -0.05 <= r - x <= 0.05
  {
    Tenths(x) as real / 10.0
  }

  /** Rounding to one decimal never reverses the order of two values. */
  lemma ToFixed1Monotone(x: real, y: real)
    requires x <= y
    ensures ToFixed1(x) <= ToFixed1(y)
  {
    assert Tenths(x) <= Tenths(y);
  }

  /** A value that already has one decimal is left as it is. */
  lemma ToFixed1OfTenths(n: int)
    ensures ToFixed1(n as real / 10.0) == n as real / 10.0
  {
    assert Tenths(n as real / 10.0) == n;
  }

  /** The text `toFixed(1)` prints for a sign and a number of tenths. */
  function FixedText(neg: bool, n: nat): (r: string)
    ensures |r| >= 3 && r[|r| - 2] == '.' && IsDigit(r[|r| - 1])
    ensures neg <==> r[0] == '-'
  {
    var body := NatToString(n / 10) + "." + [DigitChar(n % 10)];
    if neg then "-" + body else body
  }

  /** `x.toFixed(1)` as text: optional `-`, the integral digits, `.`, one digit. */
  function ToFixed1String(x: real): (r: string)
    ensures |r| >= 3 && r[|r| - 2] == '.' && IsDigit(r[|r| - 1])
    ensures x < 0.0 <==> r[0] == '-'
  {
    FixedText(x < 0.0, if x < 0.0 then -Tenths(x) else Tenths(x))
  }

  /** The exponent of a decimal literal's `ExponentPart`, 0 when the text
      does not start with a complete one. */
  function ExponentOf(r: string): int {
    if |r| > 0 && (r[0] == 'e' || r[0] == 'E') then
      var neg := |r| > 1 && r[1] == '-';
      var v := if |r| > 1 && (r[1] == '-' || r[1] == '+') then r[2..] else r[1..];
      var ds := LeadingDigits(v);
      if |ds| == 0 then 0
      else if neg then -(DigitsValue(ds) as int)
      else DigitsValue(ds)
    else 0
  }

  function Scale(m: real, e: int): real {
    if e >= 0 then m * Pow10(e) as real else m / Pow10(-e) as real
  }

  /** An unsigned decimal literal at the start of `u`: integral digits, an
      optional fraction and an optional exponent, at least one digit. */
  function ParseUnsigned(u: string): Option<real> {
    var ip := LeadingDigits(u);
    var r1 := u[|ip|..];
    var dot := |r1| > 0 && r1[0] == '.';
    var fp := if dot then LeadingDigits(r1[1..]) else "";
    var r2 := if dot then r1[1 + |fp|..] else r1;
    if |ip| + |fp| == 0 then None
    else
      var m := DigitsValue(ip) as real + DigitsValue(fp) as real / Pow10(|fp|) as real;
      Some(Scale(m, ExponentOf(r2)))
  }

  /** `parseFloat(s)`: leading white space is skipped and the longest prefix
      that is a decimal literal (sign, digits, fraction, exponent) is read;
      `None` stands for `NaN`, the result when no such prefix exists. */
  function ParseFloat(s: string): Option<real> {
    var t := TrimStart(s);
    match ParseUnsigned(Unsigned(t))
    case None => None
    case Some(v) => Some(if Negative(t) then -v else v)
  }

  /** The text starts with a minus sign. */
  predicate Negative(t: string) {
    |t| > 0 && t[0] == '-'
  }

  /** The text after an optional leading sign. */
  function Unsigned(t: string): string {
    if |t| > 0 && (t[0] == '-' || t[0] == '+') then t[1..] else t
  }

  /** `parseInt(s)` in base 10: `None` stands for `NaN`. */
  function ParseInt(s: string): Option<int> {
    var t := TrimStart(s);
    var ds := LeadingDigits(Unsigned(t));
    if |ds| == 0 then None
    else if Negative(t) then Some(-(DigitsValue(ds) as int))
    else Some(DigitsValue(ds))
  }

  lemma ParseUnsignedFixed(q: nat, d: nat)
    requires d < 10
    ensures ParseUnsigned(NatToString(q) + "." + [DigitChar(d)]) == Some(q as real + d as real / 10.0)
  {
    var fp := [DigitChar(d)];
    var u := NatToString(q) + "." + fp;
    assert u == NatToString(q) + ("." + fp);
    LeadingDigitsOf(NatToString(q), "." + fp);
    NatToStringRoundTrip(q);
    DigitRoundTrip(d);
    assert LeadingDigits(fp) == fp by { LeadingDigitsOf(fp, ""); assert fp + "" == fp; }
    assert DigitsValue(fp) == d by { assert fp[..0] == ""; }
    assert u[|NatToString(q)|..] == "." + fp;
    assert ("." + fp)[1..] == fp;
    assert ("." + fp)[1 + |fp|..] == "";
  }

  lemma ParseUnsignedNat(n: nat)
    ensures ParseUnsigned(NatToString(n)) == Some(n as real)
  {
    var u := NatToString(n);
    LeadingDigitsOf(u, "");
    assert u + "" == u;
    NatToStringRoundTrip(n);
    assert u[|u|..] == "";
  }

  lemma TenthsSplit(n: nat)
    ensures (n / 10) as real + (n % 10) as real / 10.0 == n as real / 10.0
  {
    var q, d := n / 10, n % 10;
    assert n == 10 * q + d;
    assert n as real == 10.0 * q as real + d as real;
  }

  /** `parseFloat` of a text that starts without white space splits into its
      sign and the unsigned literal after it. */
  lemma ParseFloatSigned(s: string, neg: bool, body: string, v: real)
    requires |s| > 0 && !IsWhiteSpace(s[0])
    requires Negative(s) == neg && Unsigned(s) == body
    requires ParseUnsigned(body) == Some(v)
    ensures ParseFloat(s) == Some(if neg then -v else v)
  {
    assert TrimStart(s) == s;
  }

  /** The unsigned `toFixed` text reads back as its number of tenths. */
  lemma ParseUnsignedTenths(n: nat)
    ensures ParseUnsigned(FixedText(false, n)) == Some(n as real / 10.0)
  {
    ParseUnsignedFixed(n / 10, n % 10);
    TenthsSplit(n);
  }

  /** The signed `toFixed` text is a sign followed by the unsigned text. */
  lemma FixedTextSign(neg: bool, n: nat)
    ensures Negative(FixedText(neg, n)) == neg
    ensures Unsigned(FixedText(neg, n)) == FixedText(false, n)
    ensures !IsWhiteSpace(FixedText(neg, n)[0])
  {
    var s := FixedText(neg, n);
    if neg {
      assert s[0] == '-' && s[1..] == FixedText(false, n);
    } else {
      assert IsDigit(s[0]);
    }
  }

  lemma ParseSignedFixed(neg: bool, n: nat)
    ensures ParseFloat(FixedText(neg, n)) == Some(if neg then -(n as real / 10.0) else n as real / 10.0)
  {
    ParseUnsignedTenths(n);
    FixedTextSign(neg, n);
    ParseFloatSigned(FixedText(neg, n), neg, FixedText(false, n), n as real / 10.0);
  }

  /** `parseFloat` reads back exactly the value `toFixed(1)` printed. */
  lemma ParseFloatToFixed1(x: real)
    ensures ParseFloat(ToFixed1String(x)) == Some(ToFixed1(x))
  {
    var n := if x < 0.0 then -Tenths(x) else Tenths(x);
    assert ToFixed1(x) == if x < 0.0 then -(n as real / 10.0) else n as real / 10.0;
    ParseSignedFixed(x < 0.0, n);
  }

  /** `parseFloat` reads back exactly the integer `String(i)` printed. */
  lemma ParseFloatIntToString(i: int)
    ensures ParseFloat(IntToString(i)) == Some(i as real)
  {
    var n: nat := if i < 0 then -i else i;
    var s := IntToString(i);
    ParseUnsignedNat(n);
    assert Unsigned(s) == NatToString(n) by {
      if i < 0 {
        assert s[1..] == NatToString(n);
      } else {
        assert IsDigit(s[0]);
      }
    }
    ParseFloatSigned(s, i < 0, NatToString(n), n as real);
  }

  /** `parseInt` reads back exactly the natural number `String(n)` printed. */
  lemma ParseIntNatToString(n: nat)
    ensures ParseInt(NatToString(n)) == Some(n)
  {
    var s := NatToString(n);
    assert !IsWhiteSpace(s[0]) && !Negative(s) by { assert IsDigit(s[0]); }
    assert TrimStart(s) == s;
    assert Unsigned(s) == s;
    assert LeadingDigits(s) == s by {
      LeadingDigitsOf(s, "");
      assert s + "" == s;
    }
    NatToStringRoundTrip(n);
  }
}
