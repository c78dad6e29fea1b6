/** Decimal text and the number it stands for: what strtod makes of every decimal, how a printed value relates to the value,
    and what the integer conversions do. */
module Numbers {
  import opened Wrappers
  import opened Text
  import opened Decimal

  // ---------------------------------------------------------------------------- powers of ten

  lemma {:induction false} Pow10Steps(a: int)
    ensures Pow10(a + 1) == 10.0 * Pow10(a)
  {}

  lemma {:induction false} Pow10Sum(a: int, b: nat)
    ensures Pow10(a + b) == Pow10(a) * Pow10(b)
  {
    hide Pow10;
    if b == 0 {
      Pow10OfNothing();
    } else {
      Pow10Sum(a, b - 1);
      Pow10Steps(a + b - 1);
      Pow10Steps(b - 1);
    }
  }

  lemma Pow10OfNothing() ensures Pow10(0) == 1.0 {}

  lemma Pow10Of32()
    ensures Pow10(32) == 100000000000000000000000000000000.0
  {
    assert Pow10(1) == 10.0 && Pow10(2) == 100.0;
    Pow10Sum(2, 2);
    Pow10Sum(4, 4);
    Pow10Sum(8, 8);
    Pow10Sum(16, 16);
  }

  /** A number with so many zeros behind it. */
  function Shift(n: nat, places: nat): nat { if places == 0 then n else Shift(n, places - 1) * 10 }

  lemma {:induction false} ShiftIsPower(n: nat, places: nat)
    ensures Shift(n, places) as real == n as real * Pow10(places)
  {
    if places > 0 { ShiftIsPower(n, places - 1); }
  }

  /** Digits are positional: those in front count as many times as those behind have places. */
  lemma {:induction false} NatValueOfConcat(a: string, b: string)
    requires AllDigits(a) && AllDigits(b)
    ensures AllDigits(a + b) && NatValue(a + b) == Shift(NatValue(a), |b|) + NatValue(b)
  {
    if b == "" {
      assert a + b == a;
    } else {
      hide AllDigits;
      var n := |b| - 1;
      assert (a + b)[..|a + b| - 1] == a + b[..n] && (a + b)[|a + b| - 1] == b[n];
      DigitsOfConcat(a, b);
      DigitsInFront(b, n);
      NatValueOfConcat(a, b[..n]);
    }
  }

  lemma DigitsInFront(b: string, n: nat)
    requires AllDigits(b) && n <= |b|
    ensures AllDigits(b[..n])
  {}

  lemma DigitsOfConcat(a: string, b: string)
    requires AllDigits(a) && AllDigits(b)
    ensures AllDigits(a + b)
  {}


  lemma DigitValue(d: nat)
    requires d < 10
    ensures AllDigits([DigitOf(d)]) && NatValue([DigitOf(d)]) == d
  {
    assert [DigitOf(d)][..0] == "";
  }

  // ------------------------------------------------------------------------- what strtod reads

  predicate IsSign(sign: string) { sign == "" || sign == "+" || sign == "-" }

  /** An exponent as it is written, or none. */
  datatype Power = NoPower | Power(mark: char, sign: string, digits: string)

  predicate ValidPower(x: Power) {
    x.Power? ==> (x.mark == 'e' || x.mark == 'E') && IsSign(x.sign) && x.digits != "" && AllDigits(x.digits)
  }

  function PowerText(x: Power): string {
    match x
    case NoPower => ""
    case Power(mark, sign, digits) => [mark] + sign + digits
  }

  function PowerOf(x: Power): int
    requires ValidPower(x)
  {
    match x
    case NoPower => 0
    case Power(_, sign, digits) => if sign == "-" then 0 - NatValue(digits) else NatValue(digits)
  }

  /** A decimal as it is written: sign, digits before the point, the point and the digits behind it, an exponent. */
  datatype Written = Written(sign: string, whole: string, point: bool, fraction: string, power: Power)

  predicate Valid(x: Written) {
    && IsSign(x.sign) && AllDigits(x.whole) && AllDigits(x.fraction) && ValidPower(x.power)
    && x.whole + x.fraction != "" && (x.fraction != "" ==> x.point)
  }

  function MantissaText(x: Written): string { x.whole + (if x.point then "." + x.fraction else "") }

  function TextOf(x: Written): string { x.sign + MantissaText(x) + PowerText(x.power) }

  /** The number it stands for: its digits, the point shifted by the exponent. */
  function ValueOf(x: Written): real
    requires Valid(x)
  {
    var magnitude := NatValue(x.whole + x.fraction) as real * Pow10(PowerOf(x.power) - |x.fraction|);
    if x.sign == "-" then -magnitude else magnitude
  }

  /** Text that does not go on with the number in front of it. */
  predicate Ends(x: Written, rest: string) {
    rest != "" ==>
      && !IsDigit(rest[0])
      && (x.power.NoPower? ==> rest[0] != 'e' && rest[0] != 'E' && (!x.point ==> rest[0] != '.'))
  }

  lemma SignIsTaken(sign: string, body: string)
    requires IsSign(sign) && body != "" && (IsDigit(body[0]) || body[0] == '.')
    ensures Unsigned(sign + body) == (body, sign == "-") && !IsSpace((sign + body)[0])
  {
    if sign == "" {
      assert sign + body == body;
    } else {
      assert (sign + body)[1..] == body;
    }
  }

  /** The exponent is read up to its last digit. */
  lemma PowerIsRead(x: Power, rest: string)
    requires ValidPower(x) && (rest != "" ==> !IsDigit(rest[0]) && (x.NoPower? ==> rest[0] != 'e' && rest[0] != 'E'))
    ensures Exponent(PowerText(x) + rest) == (PowerOf(x), rest)
  {
    match x
    case NoPower => assert PowerText(x) + rest == rest;
    case Power(mark, sign, digits) =>
      var body := digits + rest;
      assert (PowerText(x) + rest)[1..] == sign + body;
      SignIsTaken(sign, body);
      DigitRunOf(digits, rest);
      assert body[|digits|..] == rest;
  }

  /** The digits before and behind the point, and what follows them. */
  lemma MantissaIsCut(x: Written, after: string)
    requires Valid(x) && (after != "" ==> !IsDigit(after[0]) && (!x.point ==> after[0] != '.'))
    ensures var body, a := MantissaText(x) + after, |x.whole|;
            && a <= |body| && DigitRun(body) == a && body[..a] == x.whole
            && (if x.point then
                  && a < |body| && body[a] == '.' && DigitRun(body[a + 1..]) == |x.fraction|
                  && body[a + 1..] == x.fraction + after
                else body[a..] == after && (a < |body| ==> body[a] != '.'))
  {
    hide DigitRun;
    var body := MantissaText(x) + after;
    if x.point {
      var behind := "." + (x.fraction + after);
      assert body == x.whole + behind;
      DigitRunOf(x.whole, behind);
      DigitRunOf(x.fraction, after);
      assert body[|x.whole| + 1..] == x.fraction + after;
    } else {
      assert body == x.whole + after;
      DigitRunOf(x.whole, after);
    }
  }

  /** strtod reads every decimal as the number it stands for, whatever blanks are in front of it and whatever follows it. */
  lemma StrtodReads(blank: string, x: Written, rest: string)
    requires Blank(blank) && Valid(x) && Ends(x, rest)
    ensures Strtod(blank + TextOf(x) + rest) == Some(Scanned(ValueOf(x), rest))
  {
    hide TrimLeft, Unsigned, DigitRun, Exponent, NatValue, Pow10, Strtod, MantissaText, PowerText;
    var after := PowerText(x.power) + rest;
    var body := MantissaText(x) + after;
    assert blank + TextOf(x) + rest == blank + (x.sign + body);
    BodyStarts(x, after);
    SignIsTaken(x.sign, body);
    BlankIsTrimmed(blank, x.sign + body);
    AfterMantissa(x, rest);
    MantissaIsCut(x, after);
    PowerIsRead(x.power, rest);
    StrtodOfCut(blank + TextOf(x) + rest, body, x, after, rest);
  }

  lemma BodyStarts(x: Written, after: string)
    requires Valid(x)
    ensures var body := MantissaText(x) + after; body != "" && (IsDigit(body[0]) || body[0] == '.')
  {}

  lemma AfterMantissa(x: Written, rest: string)
    requires Valid(x) && Ends(x, rest)
    ensures var after := PowerText(x.power) + rest; after != "" ==> !IsDigit(after[0]) && (!x.point ==> after[0] != '.')
  {}

  /** strtod on a body that is cut into its parts. */
  lemma StrtodOfCut(s: string, body: string, x: Written, after: string, rest: string)
    requires Valid(x) && Unsigned(TrimLeft(s)) == (body, x.sign == "-")
    requires |x.whole| <= |body| && DigitRun(body) == |x.whole| && body[..|x.whole|] == x.whole
    requires x.point ==> |x.whole| < |body| && body[|x.whole|] == '.'
                         && DigitRun(body[|x.whole| + 1..]) == |x.fraction| && body[|x.whole| + 1..] == x.fraction + after
    requires !x.point ==> body[|x.whole|..] == after && (|x.whole| < |body| ==> body[|x.whole|] != '.')
    requires Exponent(after) == (PowerOf(x.power), rest)
    ensures Strtod(s) == Some(Scanned(ValueOf(x), rest))
  {
    hide TrimLeft, Unsigned, DigitRun, Exponent, NatValue, Pow10;
    if x.point {
      assert (x.fraction + after)[..|x.fraction|] == x.fraction && (x.fraction + after)[|x.fraction|..] == after;
    } else {
      assert x.fraction == "" && x.whole + "" == x.whole;
    }
  }

  /** Without a digit in front, or behind a point in front, there is no number. */
  lemma StrtodRefuses(blank: string, sign: string, s: string)
    requires Blank(blank) && IsSign(sign) && s != "" && !IsSpace(s[0])
    requires (sign == "" ==> s[0] != '+' && s[0] != '-') && !IsDigit(s[0])
    requires s[0] == '.' ==> |s| == 1 || !IsDigit(s[1])
    ensures Strtod(blank + sign + s) == None
  {
    hide TrimLeft;
    assert blank + sign + s == blank + (sign + s);
    assert !IsSpace((sign + s)[0]);
    BlankIsTrimmed(blank, sign + s);
    if sign == "" { assert sign + s == s; } else { assert (sign + s)[1..] == s; }
  }

  /** A numeric parameter is a decimal with nothing but blanks around it. */
  lemma ParseNumberReads(blank: string, x: Written, rest: string)
    requires Blank(blank) && Valid(x) && Ends(x, rest)
    ensures Blank(rest) ==> ParseNumber(blank + TextOf(x) + rest) == Some(ValueOf(x))
    ensures Trim(rest) != "" ==> ParseNumber(blank + TextOf(x) + rest) == None
  {
    hide Strtod, Trim, Valid, ValueOf, TextOf, Ends;
    StrtodReads(blank, x, rest);
    if Blank(rest) { BlankIsNothing(rest); }
  }

  // ------------------------------------------------------------------------- printed values

  /** Printed in the form ±d.ddddE±dd with so many digits behind the point, and rounded to the last of them. */
  ghost predicate PrintedAs(text: string, precision: nat, r: real) {
    exists x: Written :: Scientific(x, precision) && TextOf(x) == text && Rounded(x, r)
  }

  predicate Scientific(x: Written, precision: nat) {
    Valid(x) && x.sign != "" && |x.whole| == 1 && |x.fraction| == precision && x.power.Power? && x.power.sign != ""
  }

  /** Within half a unit of the last place; only zero is printed with a zero in front. */
  predicate Rounded(x: Written, r: real)
    requires Valid(x)
  {
    && Abs(ValueOf(x) - r) <= Pow10(PowerOf(x.power) - |x.fraction|) / 2.0
    && (x.whole == "0" ==> r == 0.0 == ValueOf(x))
  }

  /** The value of such a printed decimal. */
  ghost predicate RoundedTo(precision: nat, v: real, r: real) {
    exists x: Written :: Scientific(x, precision) && Rounded(x, r) && ValueOf(x) == v
  }

  /** As close as a value printed with so many digits behind the first one is. */
  predicate NearTo(precision: nat, v: real, r: real) {
    Abs(v - r) <= Abs(v) * Pow10(0 - precision) / 2.0
  }

  // --------------------------------------------------------------------- conversions to integers

  /** lround gives the nearest integer, and of two equally near ones that farther from zero. */
  lemma LroundIsNearest(v: real)
    ensures Abs(Lround(v) as real - v) <= 0.5
    ensures Abs(Lround(v) as real - v) == 0.5 ==> Abs(Lround(v) as real) > Abs(v)
  {}

  /** The conversion to an integer type drops what is behind the point. */
  lemma TruncateDropsTheFraction(v: real)
    ensures Abs(Truncate(v) as real) <= Abs(v) < Abs(Truncate(v) as real) + 1.0
    ensures v >= 0.0 ==> Truncate(v) >= 0
    ensures v <= 0.0 ==> Truncate(v) <= 0
  {}

  lemma CeilingIsLeast(v: real)
    ensures Ceiling(v) as real - 1.0 < v <= Ceiling(v) as real
  {}
}
