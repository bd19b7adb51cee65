/** Python's float() applied to the tokens the telemetry pattern captures.

    The pattern only captures runs over the characters `-`, `.` and the decimal
    digits, so this module models float() on that alphabet alone. Over it, float()
    accepts exactly an optional single leading minus sign followed by digits with at
    most one decimal point and at least one digit ("12.34", "-5", "1.", ".5") and
    rejects everything else ("1.2.3", "-", "--1", "."). Values are exact decimal reals;
    the rounding to the nearest IEEE double is not modelled. */
module FloatLiteral {
  import opened Wrappers

  predicate IsDigit(c: char) {
    '0' <= c <= '9'
  }

  /** The character class `[-\d\.]` of the telemetry pattern. */
  predicate IsNumChar(c: char) {
    c == '-' || c == '.' || IsDigit(c)
  }

  predicate AllDigits(s: string) {
    forall k :: 0 <= k < |s| ==> IsDigit(s[k])
  }

  predicate AllNumChars(s: string) {
    forall k :: 0 <= k < |s| ==> IsNumChar(s[k])
  }

  function DigitValue(c: char): nat
    requires IsDigit(c)
  {
    c as int - '0' as int
  }

  /** The natural number a digit string denotes, most significant digit first. */
  function DigitsValue(s: string): nat
    requires AllDigits(s)
  {
    if s == [] then 0 else 10 * DigitsValue(s[..|s| - 1]) + DigitValue(s[|s| - 1])
  }

  function Pow10(n: nat): (r: nat)
    ensures r >= 1
  {
    if n == 0 then 1 else 10 * Pow10(n - 1)
  }

  /** A decimal literal split into its parts: sign, digits before the point, whether
      a point is written, and digits after it. */
  datatype Decimal = Decimal(negative: bool, whole: string, point: bool, fraction: string)

  /** The literals float() accepts: at least one digit, and fraction digits only after a point. */
  predicate WellFormed(d: Decimal) {
    && AllDigits(d.whole)
    && AllDigits(d.fraction)
    && |d.whole| + |d.fraction| > 0
    && (d.point || d.fraction == [])
  }

  /** The text of a decimal literal. */
  function Format(d: Decimal): string {
    (if d.negative then "-" else "") + Magnitude(d)
  }

  /** The text of a decimal literal after its sign. */
  function Magnitude(d: Decimal): string {
    d.whole + (if d.point then "." + d.fraction else "")
  }

  /** The exact value a decimal literal denotes. */
  function Value(d: Decimal): real
    requires WellFormed(d)
  {
    var magnitude := DigitsValue(d.whole) as real
      + DigitsValue(d.fraction) as real / Pow10(|d.fraction|) as real;
    if d.negative then -magnitude else magnitude
  }

  /** The tokens float() accepts, stated as "the text of some well-formed decimal". */
  ghost predicate IsFloatLiteral(t: string) {
    exists d :: WellFormed(d) && Format(d) == t
  }

  /** Position of the first decimal point, or the length when there is none. */
  function IndexOfPoint(t: string): (k: nat)
    ensures k <= |t|
    ensures forall j :: 0 <= j < k ==> t[j] != '.'
    ensures k < |t| ==> t[k] == '.'
  {
    if t == [] || t[0] == '.' then 0 else 1 + IndexOfPoint(t[1..])
  }

  /** The decimal a token is read as: a leading minus is the sign, the first point
      splits the rest into whole and fraction digits. */
  function Split(t: string): Decimal {
    if |t| > 0 && t[0] == '-' then SplitMagnitude(true, t[1..]) else SplitMagnitude(false, t)
  }

  function SplitMagnitude(negative: bool, body: string): Decimal {
    var k := IndexOfPoint(body);
    Decimal(negative, body[..k], k < |body|, if k < |body| then body[k + 1..] else [])
  }

  /** float(t) for a token over `[-\d\.]`: the value, or None where Python raises ValueError. */
  function ParseFloat(t: string): Option<real>
    requires AllNumChars(t)
  {
    var d := Split(t);
    if WellFormed(d) then Some(Value(d)) else None
  }

  lemma FormatIsNumChars(d: Decimal)
    requires WellFormed(d)
    ensures AllNumChars(Format(d))
    ensures |Format(d)| > 0
  {
  }

  /** The first point of a magnitude is the one after its whole digits. */
  lemma {:induction false} IndexOfPointAfterDigits(whole: string, rest: string)
    requires AllDigits(whole)
    requires rest == [] || rest[0] == '.'
    ensures IndexOfPoint(whole + rest) == |whole|
  {
    if whole != [] {
      assert (whole + rest)[1..] == whole[1..] + rest;
      IndexOfPointAfterDigits(whole[1..], rest);
    }
  }

  lemma SplitMagnitudeOf(d: Decimal)
    requires WellFormed(d)
    ensures SplitMagnitude(d.negative, Magnitude(d)) == d
  {
    var body := Magnitude(d);
    var rest := if d.point then "." + d.fraction else "";
    assert body == d.whole + rest;
    IndexOfPointAfterDigits(d.whole, rest);
    assert body[..|d.whole|] == d.whole;
    if d.point {
      assert body[|d.whole| + 1..] == d.fraction;
    }
  }

  /** Every well-formed literal's text reads back as that literal. */
  lemma SplitFormat(d: Decimal)
    requires WellFormed(d)
    ensures Split(Format(d)) == d
  {
    var t := Format(d);
    SplitMagnitudeOf(d);
    if d.negative {
      assert t == "-" + Magnitude(d);
      assert t[1..] == Magnitude(d);
    } else {
      assert t == Magnitude(d);
      if |d.whole| > 0 {
        assert t[0] == d.whole[0];
      } else {
        assert t[0] == '.';
      }
    }
  }

  /** float() accepts the text of every well-formed literal and yields its exact value. */
  lemma ParseFloatFormat(d: Decimal)
    requires WellFormed(d)
    ensures AllNumChars(Format(d))
    ensures ParseFloat(Format(d)) == Some(Value(d))
  {
    FormatIsNumChars(d);
    SplitFormat(d);
  }

  lemma MagnitudeOfSplit(negative: bool, body: string)
    ensures Magnitude(SplitMagnitude(negative, body)) == body
  {
    var k := IndexOfPoint(body);
    if k < |body| {
      assert body == body[..k] + "." + body[k + 1..];
    } else {
      assert body == body[..k];
    }
  }

  /** Whatever float() accepts is the text of a well-formed literal with the value returned. */
  lemma ParseFloatOnlyLiterals(t: string)
    requires AllNumChars(t)
    requires ParseFloat(t).Some?
    ensures WellFormed(Split(t))
    ensures Format(Split(t)) == t
    ensures ParseFloat(t) == Some(Value(Split(t)))
  {
    if |t| > 0 && t[0] == '-' {
      MagnitudeOfSplit(true, t[1..]);
      assert t == "-" + t[1..];
    } else {
      MagnitudeOfSplit(false, t);
    }
  }

  /** float() succeeds on a token exactly when the token is a decimal literal. */
  lemma ParseFloatIff(t: string)
    requires AllNumChars(t)
    ensures ParseFloat(t).Some? <==> IsFloatLiteral(t)
  {
    if ParseFloat(t).Some? {
      ParseFloatOnlyLiterals(t);
    }
    if IsFloatLiteral(t) {
      var d :| WellFormed(d) && Format(d) == t;
      ParseFloatFormat(d);
    }
  }

  /** Tokens inside the character class that float() rejects. */
  lemma RejectedTokens()
    ensures ParseFloat("1.2.3") == None
    ensures ParseFloat("-") == None
    ensures ParseFloat("--1") == None
    ensures ParseFloat(".") == None
    ensures ParseFloat("") == None
  {
    assert IndexOfPoint("2.3") == 1;
    assert IndexOfPoint("1.2.3") == 1;
    assert "1.2.3"[2..] == "2.3";
    assert !AllDigits("2.3") by { assert "2.3"[1] == '.'; }
    assert Split("--1").whole == "-1";
    assert !AllDigits("-1") by { assert "-1"[0] == '-'; }
  }

  /** The pitch of the documented example line. */
  lemma ExamplePitch()
    ensures var d := Decimal(false, "12", true, "34");
            WellFormed(d) && Format(d) == "12.34" && Value(d) == 12.34
    ensures ParseFloat("12.34") == Some(12.34)
  {
    var d := Decimal(false, "12", true, "34");
    assert DigitsValue("12") == 12 by { assert "12"[..1] == "1"; }
    assert DigitsValue("34") == 34 by { assert "34"[..1] == "3"; }
    assert |d.fraction| == 2 && Pow10(2) == 100;
    assert Value(d) == 12.34;
    ParseFloatFormat(d);
    assert Format(d) == "12.34";
  }

  /** The roll of the documented example line. */
  lemma ExampleRoll()
    ensures var d := Decimal(true, "56", true, "78");
            WellFormed(d) && Format(d) == "-56.78" && Value(d) == -56.78
    ensures ParseFloat("-56.78") == Some(-56.78)
  {
    var d := Decimal(true, "56", true, "78");
    assert DigitsValue("56") == 56 by { assert "56"[..1] == "5"; }
    assert DigitsValue("78") == 78 by { assert "78"[..1] == "7"; }
    assert |d.fraction| == 2 && Pow10(2) == 100;
    assert Value(d) == -56.78;
    ParseFloatFormat(d);
    assert Format(d) == "-56.78";
  }

  /** The heading of the documented example line. */
  lemma ExampleHeading()
    ensures var d := Decimal(false, "123", true, "45");
            WellFormed(d) && Format(d) == "123.45" && Value(d) == 123.45
    ensures ParseFloat("123.45") == Some(123.45)
  {
    var d := Decimal(false, "123", true, "45");
    assert DigitsValue("123") == 123 by { assert "123"[..2] == "12"; assert "12"[..1] == "1"; }
    assert DigitsValue("45") == 45 by { assert "45"[..1] == "4"; }
    assert |d.fraction| == 2 && Pow10(2) == 100;
    assert Value(d) == 123.45;
    ParseFloatFormat(d);
    assert Format(d) == "123.45";
  }

  /** A trailing point and a missing whole part are both accepted. */
  lemma PartialLiterals()
    ensures ParseFloat("1.") == Some(1.0)
    ensures ParseFloat("-.5") == Some(-0.5)
  {
    TrailingPoint();
    NoWholePart();
  }

  /** "1." reads as the decimal with whole part "1" and an empty fraction. */
  lemma TrailingPoint()
    ensures ParseFloat("1.") == Some(1.0)
  {
    var a := Decimal(false, "1", true, "");
    assert WellFormed(a);
    assert Format(a) == "1.";
    assert DigitsValue("1") == 1;
    assert DigitsValue("") == 0 && Pow10(0) == 1;
    assert Value(a) == 1.0;
    ParseFloatFormat(a);
  }

  /** "-.5" reads as the negative decimal with no whole digits and fraction "5". */
  lemma NoWholePart()
    ensures ParseFloat("-.5") == Some(-0.5)
  {
    var b := Decimal(true, "", true, "5");
    assert WellFormed(b);
    assert Format(b) == "-.5";
    assert DigitsValue("") == 0 && DigitsValue("5") == 5;
    assert |b.fraction| == 1 && Pow10(1) == 10;
    assert Value(b) == -0.5;
    ParseFloatFormat(b);
  }
}
