/** Decimal text: printing and reading integers, and reading numbers the way strtol and strtod do.
    Numbers are exact reals; hexadecimal floats and the spellings of infinity and NaN are not modelled. */
module Decimal {
  import opened Wrappers
  import opened Text

  // ------------------------------------------------------------------ integers

  function DigitOf(d: nat): char
    requires d < 10
  {
    (d + 48) as char
  }

  predicate AllDigits(s: string) {
    forall i :: 0 <= i < |s| ==> IsDigit(s[i])
  }

  function NatText(n: nat): (s: string)
    ensures |s| >= 1 && AllDigits(s)
  {
    if n < 10 then [DigitOf(n)] else NatText(n / 10) + [DigitOf(n % 10)]
  }

  function IntText(n: int): (s: string)
    ensures |s| >= 1
  {
    if n < 0 then ['-'] + NatText(-n) else NatText(n)
  }

  function NatValue(s: string): nat
    requires AllDigits(s)
  {
    if s == "" then 0 else NatValue(s[..|s| - 1]) * 10 + (s[|s| - 1] as nat - 48)
  }

  /** The length of the leading run of digits. */
  function DigitRun(s: string): (n: nat)
    ensures n <= |s| && AllDigits(s[..n])
    ensures n < |s| ==> !IsDigit(s[n])
  {
    if s == "" || !IsDigit(s[0]) then 0
    else
      var n := DigitRun(s[1..]) + 1;
      assert forall i :: 0 < i < n ==> s[i] == s[1..][i - 1];
      n
  }

  lemma {:induction false} NatRoundTrip(n: nat)
    ensures NatValue(NatText(n)) == n
  {
    if n >= 10 {
      NatRoundTrip(n / 10);
      assert NatText(n)[..|NatText(n)| - 1] == NatText(n / 10);
    }
  }

  lemma DigitRunOf(digits: string, rest: string)
    requires AllDigits(digits) && (rest == "" || !IsDigit(rest[0]))
    ensures DigitRun(digits + rest) == |digits|
    ensures (digits + rest)[..|digits|] == digits
  {
    var s := digits + rest;
    assert forall i :: 0 <= i < |digits| ==> s[i] == digits[i];
    assert rest != "" ==> s[|digits|] == rest[0];
    assert forall i :: 0 <= i < DigitRun(s) ==> s[i] == s[..DigitRun(s)][i];
  }

  /** The body of a number after an optional sign, and whether the sign was a minus. */
  function Unsigned(s: string): (string, bool) {
    if s != "" && (s[0] == '-' || s[0] == '+') then (s[1..], s[0] == '-') else (s, false)
  }

  /** strtol in base 10: the integer at the start of `s`, or None when there is none. */
  function Strtol(s: string): Option<int> {
    var (body, negative) := Unsigned(TrimLeft(s));
    var n := DigitRun(body);
    if n == 0 then None
    else if negative then Some(0 - NatValue(body[..n])) else Some(NatValue(body[..n]))
  }

  lemma IntTextShape(n: int)
    ensures TrimLeft(IntText(n)) == IntText(n) && Trim(IntText(n)) == IntText(n)
    ensures Unsigned(IntText(n)) == (NatText(if n < 0 then -n else n), n < 0)
    ensures forall i :: 0 <= i < |IntText(n)| ==> IsDigit(IntText(n)[i]) || IntText(n)[i] == '-'
  {
    TrimOfTrimmed(IntText(n));
  }

  lemma SignOfIntText(n: int, rest: string)
    ensures Unsigned(TrimLeft(IntText(n) + rest)) == (NatText(if n < 0 then -n else n) + rest, n < 0)
  {
    var digits := NatText(if n < 0 then -n else n);
    var s := IntText(n) + rest;
    assert s[0] == IntText(n)[0];
    if n < 0 {
      assert s[1..] == digits + rest;
    } else {
      assert s == digits + rest;
    }
  }

  /** strtol reads back a printed integer, whatever non-digit follows it. */
  lemma StrtolOfIntText(n: int, rest: string)
    requires rest == "" || !IsDigit(rest[0])
    ensures Strtol(IntText(n) + rest) == Some(n)
  {
    var digits := NatText(if n < 0 then -n else n);
    SignOfIntText(n, rest);
    DigitRunOf(digits, rest);
    NatRoundTrip(if n < 0 then -n else n);
  }

  // ------------------------------------------------------------------- numbers

  function Pow10(n: int): (r: real)
    ensures r > 0.0
    decreases if n < 0 then -n else n
  {
    if n == 0 then 1.0 else if n > 0 then 10.0 * Pow10(n - 1) else Pow10(n + 1) / 10.0
  }

  /** The number with these digits and this power of ten. */
  function Scaled(digits: nat, exponent: int): real { digits as real * Pow10(exponent) }

  datatype Scanned = Scanned(value: real, rest: string)

  /** The exponent at the start of `s` and the text after it; no digits means no exponent. */
  function Exponent(s: string): (int, string) {
    if s == "" || (s[0] != 'e' && s[0] != 'E') then (0, s)
    else
      var (body, negative) := Unsigned(s[1..]);
      var n := DigitRun(body);
      if n == 0 then (0, s)
      else (if negative then 0 - NatValue(body[..n]) else NatValue(body[..n]), body[n..])
  }

  /** strtod: the number at the start of `s` with the text after it, or None when there is none. */
  function Strtod(s: string): Option<Scanned> {
    var (body, negative) := Unsigned(TrimLeft(s));
    var a := DigitRun(body);
    var dot := a < |body| && body[a] == '.';
    var b := if dot then DigitRun(body[a + 1..]) else 0;
    if a + b == 0 then None
    else
      var digits := body[..a] + (if dot then body[a + 1..][..b] else "");
      var after := if dot then body[a + 1..][b..] else body[a..];
      var (exponent, rest) := Exponent(after);
      var magnitude := Scaled(NatValue(digits), exponent - b);
      Some(Scanned(if negative then -magnitude else magnitude, rest))
  }

  /** A numeric parameter: a number and nothing after it, since no unit is accepted. */
  function ParseNumber(text: string): Option<real> {
    match Strtod(text)
    case None => None
    case Some(scanned) => if Trim(scanned.rest) == "" then Some(scanned.value) else None
  }

  /** ON, OFF, or any number with 0 meaning off. */
  function ParseBoolean(text: string): Option<bool> {
    var value := Upper(Trim(text));
    if value == "ON" then Some(true)
    else if value == "OFF" then Some(false)
    else match ParseNumber(text)
      case None => None
      case Some(number) => Some(number != 0.0)
  }

  /** A printed integer is a numeric parameter with that value. */
  lemma ParseNumberOfIntText(n: int)
    ensures ParseNumber(IntText(n)) == Some(n as real)
  {
    var s := IntText(n);
    var digits := NatText(if n < 0 then -n else n);
    IntTextShape(n);
    assert digits + "" == digits;
    DigitRunOf(digits, "");
    assert digits[..|digits|] == digits && digits[|digits|..] == "";
    assert digits + "" == digits;
    NatRoundTrip(if n < 0 then -n else n);
    assert Pow10(0) == 1.0;
  }

  function Abs(x: real): real { if x < 0.0 then -x else x }

  /** lround: to the nearest integer, halves away from zero. */
  function Lround(v: real): int {
    if v >= 0.0 then (v + 0.5).Floor else -((-v + 0.5).Floor)
  }

  lemma LroundOfInt(n: int)
    ensures Lround(n as real) == n
  {}

  /** The conversion of a double to an integer type, which drops the fraction. */
  function Truncate(v: real): int {
    if v >= 0.0 then v.Floor else -((-v).Floor)
  }

  function Ceiling(v: real): int {
    -((-v).Floor)
  }
}
