/** Finite `decimal.Decimal` values: their exact value, `str` and the constructor.

    The text forms are those of the General Decimal Arithmetic Specification, chapter
    "Conversions": to-scientific-string and to-number. */
module Decimals {
  import opened Wrappers

  datatype Decimal = Decimal(negative: bool, coefficient: nat, exponent: int)

  /** Ten to the power `e`, for any integer `e`. */
  function Pow10(e: int): (r: real)
    ensures r > 0.0
    decreases if e < 0 then -e else e
  {
    if e == 0 then 1.0
    else if e > 0 then 10.0 * Pow10(e - 1)
    else Pow10(e + 1) / 10.0
  }

  function Value(d: Decimal): real {
    (if d.negative then -1.0 else 1.0) * d.coefficient as real * Pow10(d.exponent)
  }

  /** `d > Decimal("0")`: a signed zero is not positive. */
  predicate Positive(d: Decimal) {
    !d.negative && d.coefficient > 0
  }

  lemma PositiveIsPositive(d: Decimal)
    ensures Positive(d) <==> Value(d) > 0.0
  {
    var p := Pow10(d.exponent);
    var c := d.coefficient as real;
    if d.coefficient > 0 {
      assert c * p > 0.0;
      assert (-1.0 * c) * p == -(c * p);
    }
  }

  // ----- Equal amounts, in whole numbers -----

  function Power(n: nat): (r: nat)
    ensures r > 0
  {
    if n == 0 then 1 else 10 * Power(n - 1)
  }

  function Digits(d: Decimal): int {
    var magnitude: int := d.coefficient;
    if d.negative then -magnitude else magnitude
  }

  /** How often the place `last` the number is. */
  function Times(d: Decimal, last: int): int
    requires last <= d.exponent
  {
    Digits(d) * Power(d.exponent - last)
  }

  /** Both numbers are the same multiple of the smaller of their last places. */
  predicate SameNumber(a: Decimal, b: Decimal) {
    var last := if a.exponent <= b.exponent then a.exponent else b.exponent;
    Times(a, last) == Times(b, last)
  }

  lemma {:induction false} Pow10Steps(e: int)
    ensures Pow10(e + 1) == 10.0 * Pow10(e)
    decreases if e < 0 then -e else e
  {
  }

  function Scale(x: real, p: real): real {
    x * p
  }

  lemma TenTimes(n: nat, q: real)
    ensures Scale((10 * n) as real, q) == 10.0 * Scale(n as real, q)
  {
    var p := n as real;
    assert (10 * n) as real == 10.0 * p;
    assert 10.0 * (p * q) == (10.0 * p) * q;
  }

  lemma {:induction false} PowersAgree(last: int, n: nat)
    ensures Pow10(last + n) == Scale(Power(n) as real, Pow10(last))
  {
    if n > 0 {
      PowersAgree(last, n - 1);
      Pow10Steps(last + n - 1);
      TenTimes(Power(n - 1), Pow10(last));
      hide Pow10, Scale;
    }
  }

  /** What `Value` is: whole numbers are themselves, a zero more at the end is a place more in
      the exponent, and the sign is a sign. */
  lemma ValueLaws(c: nat, e: int, negative: bool)
    ensures Value(Decimal(false, c, 0)) == c as real
    ensures Value(Decimal(negative, 10 * c, e)) == Value(Decimal(negative, c, e + 1))
    ensures Value(Decimal(!negative, c, e)) == -Value(Decimal(negative, c, e))
  {
    Pow10Steps(e);
    var p, q := Pow10(e), c as real;
    assert (10 * c) as real == 10.0 * q;
    assert (10.0 * q) * p == q * (10.0 * p);
    assert (-1.0 * (10.0 * q)) * p == (-1.0 * q) * (10.0 * p);
    assert (-1.0 * q) * p == -(q * p);
  }

  lemma {:induction false} ProductOfNats(n: nat, m: nat)
    ensures (n * m) as real == n as real * m as real
  {
    if n > 0 {
      ProductOfNats(n - 1, m);
      assert n * m == (n - 1) * m + m;
      assert n as real * m as real == (n as real - 1.0) * m as real + m as real;
    }
  }

  lemma Regroup(sign: real, c: real, p: real, q: real)
    ensures Scale(Scale(sign, c), Scale(p, q)) == Scale(Scale(sign, Scale(c, p)), q)
  {
    assert (sign * c) * (p * q) == ((sign * c) * p) * q;
    assert (sign * c) * p == sign * (c * p);
  }

  lemma SignedTimes(d: Decimal, last: int)
    requires last <= d.exponent
    ensures var p := Power(d.exponent - last);
            Times(d, last) as real == Scale(if d.negative then -1.0 else 1.0, Scale(d.coefficient as real, p as real))
  {
    var c: int, p: nat := d.coefficient, Power(d.exponent - last);
    ProductOfNats(d.coefficient, p);
    hide Power;
    assert -c * p == -(c * p);
  }

  lemma ValueIsScaled(d: Decimal)
    ensures Value(d) == Scale(Scale(if d.negative then -1.0 else 1.0, d.coefficient as real), Pow10(d.exponent))
  {
  }

  lemma ScaledValue(d: Decimal, last: int)
    requires last <= d.exponent
    ensures Value(d) == Scale(Times(d, last) as real, Pow10(last))
  {
    var p := Power(d.exponent - last);
    SignedTimes(d, last);
    PowersAgree(last, d.exponent - last);
    ValueIsScaled(d);
    Regroup(if d.negative then -1.0 else 1.0, d.coefficient as real, p as real, Pow10(last));
    hide Value, Times, Power, Pow10, Scale;
  }

  lemma Cancel(x: real, y: real, p: real)
    requires p > 0.0
    ensures Scale(x, p) == Scale(y, p) <==> x == y
  {
    if x * p == y * p { assert (x - y) * p == 0.0; }
  }

  /** Values are equal exactly when the whole multiples are. */
  lemma SameNumberIsSameValue(a: Decimal, b: Decimal)
    ensures SameNumber(a, b) <==> Value(a) == Value(b)
  {
    var last := if a.exponent <= b.exponent then a.exponent else b.exponent;
    ScaledValue(a, last);
    ScaledValue(b, last);
    Cancel(Times(a, last) as real, Times(b, last) as real, Pow10(last));
    hide Value, Times, Pow10, Scale;
  }

  // ----- Natural numbers in decimal notation -----

  function DigitChar(n: nat): char
    requires n < 10
  {
    ('0' as int + n) as char
  }

  predicate IsDigit(c: char) {
    '0' <= c <= '9'
  }

  predicate AllDigits(s: string) {
    forall i :: 0 <= i < |s| ==> IsDigit(s[i])
  }

  /** `str(n)` for a natural number. */
  function NatText(n: nat): (r: string)
    ensures r != "" && AllDigits(r)
  {
    if n < 10 then [DigitChar(n)] else NatText(n / 10) + [DigitChar(n % 10)]
  }

  /** `int(s)` for a text of digits; the empty text counts as zero. */
  function NatOf(s: string): nat
    requires AllDigits(s)
  {
    if s == "" then 0
    else 10 * NatOf(s[..|s| - 1]) + (s[|s| - 1] as int - '0' as int)
  }

  lemma {:induction false} NatRoundTrip(n: nat)
    ensures NatOf(NatText(n)) == n
  {
    if n >= 10 {
      NatRoundTrip(n / 10);
      assert NatText(n)[..|NatText(n)| - 1] == NatText(n / 10);
    }
  }

  /** Decimal notation is positional: digits in front count ten times more for each digit
      that follows, and a single digit counts what it says. */
  lemma {:induction false} NotationIsPositional(a: string, b: string)
    requires AllDigits(a) && AllDigits(b)
    ensures AllDigits(a + b) && NatOf(a + b) == NatOf(a) * Power(|b|) + NatOf(b)
  {
    var ab := a + b;
    if b == "" {
      assert ab == a;
    } else {
      var front, last := b[..|b| - 1], b[|b| - 1] as int - '0' as int;
      NotationIsPositional(a, front);
      assert ab[..|ab| - 1] == a + front;
      OneMorePlace(NatOf(a), Power(|front|), NatOf(front), last);
      hide NatOf, Power;
    }
  }

  lemma OneMorePlace(a: nat, p: nat, front: nat, last: int)
    ensures 10 * (a * p + front) + last == a * (10 * p) + (10 * front + last)
  {
  }

  lemma OneDigit(digit: nat)
    requires digit < 10
    ensures NatOf(["0123456789"[digit]]) == digit
  {
    var one := ["0123456789"[digit]];
    assert one[..0] == "" && NatOf("") == 0;
  }

  function Zeros(n: nat): (r: string)
    ensures |r| == n && AllDigits(r)
  {
    seq(n, _ => '0')
  }

  lemma {:induction false} LeadingZeros(n: nat, s: string)
    requires AllDigits(s)
    ensures AllDigits(Zeros(n) + s) && NatOf(Zeros(n) + s) == NatOf(s)
  {
    var t := Zeros(n) + s;
    if s != "" {
      LeadingZeros(n, s[..|s| - 1]);
      assert t[..|t| - 1] == Zeros(n) + s[..|s| - 1];
    } else if n > 0 {
      LeadingZeros(n - 1, s);
      assert t[..|t| - 1] == Zeros(n - 1) + s;
    }
  }

  // ----- to-scientific-string -----

  function SignedText(n: int): string {
    if n < 0 then "-" + NatText(-n) else "+" + NatText(n)
  }

  // ----- to-number -----

  /** The longest prefix of digits. */
  function DigitRun(s: string): (r: string)
    ensures |r| <= |s| && r == s[..|r|] && AllDigits(r)
    ensures |r| < |s| ==> !IsDigit(s[|r|])
  {
    if s != "" && IsDigit(s[0]) then [s[0]] + DigitRun(s[1..]) else ""
  }

  lemma {:induction false} DigitRunStops(digits: string, rest: string)
    requires AllDigits(digits)
    requires rest == "" || !IsDigit(rest[0])
    ensures DigitRun(digits + rest) == digits
  {
    if digits != "" {
      DigitRunStops(digits[1..], rest);
      assert (digits + rest)[1..] == digits[1..] + rest;
    } else {
      assert digits + rest == rest;
    }
  }

  function Signed(s: string): (bool, string) {
    if s != "" && (s[0] == '-' || s[0] == '+') then (s[0] == '-', s[1..]) else (false, s)
  }

  /** The exponent part: nothing, or `E` and a signed number that ends the text. */
  function ExponentOf(s: string): Option<int> {
    if s == "" then Some(0)
    else if s[0] !in {'e', 'E'} then None
    else
      var (minus, digits) := Signed(s[1..]);
      if digits == "" || !AllDigits(digits) then None
      else
        var magnitude: int := NatOf(digits);
        Some(if minus then -magnitude else magnitude)
  }

  /** Digits before the point, digits after it, and what is left. */
  function Mantissa(body: string): (r: (string, string, string))
    ensures AllDigits(r.0) && AllDigits(r.1)
  {
    var whole := DigitRun(body);
    var rest := body[|whole|..];
    if rest != "" && rest[0] == '.' then
      var fraction := DigitRun(rest[1..]);
      (whole, fraction, rest[1 + |fraction|..])
    else (whole, "", rest)
  }

  /** `Decimal(s)` for the numeric strings that denote a finite number. */
  function FromText(s: string): Option<Decimal> {
    var (negative, body) := Signed(s);
    var (whole, fraction, tail) := Mantissa(body);
    if whole + fraction == "" then None
    else
      match ExponentOf(tail)
      case None => None
      case Some(e) => Some(Decimal(negative, NatOf(whole + fraction), e - |fraction|))
  }

  lemma ExponentRoundTrip(n: int)
    ensures ExponentOf("E" + SignedText(n)) == Some(n)
  {
    var t := "E" + SignedText(n);
    assert t[1..] == SignedText(n);
    var m: nat := if n < 0 then -n else n;
    assert SignedText(n)[1..] == NatText(m);
    NatRoundTrip(m);
  }

  lemma NoExponent()
    ensures ExponentOf("") == Some(0)
  {
  }

  function Dotted(fraction: string): string {
    if fraction == "" then "" else "." + fraction
  }

  lemma RunSplits(digits: string, rest: string)
    requires AllDigits(digits)
    requires rest == "" || !IsDigit(rest[0])
    ensures DigitRun(digits + rest) == digits && (digits + rest)[|digits|..] == rest
  {
    DigitRunStops(digits, rest);
  }

  lemma MantissaSplits(body: string, whole: string, rest: string)
    requires DigitRun(body) == whole && body[|whole|..] == rest
    ensures Mantissa(body) ==
            if rest != "" && rest[0] == '.' then
              var fraction := DigitRun(rest[1..]);
              (whole, fraction, rest[1 + |fraction|..])
            else (whole, "", rest)
  {
  }

  lemma AfterPoint(fraction: string, power: string)
    requires fraction != ""
    ensures var rest := Dotted(fraction) + power;
            rest[0] == '.' && rest[1..] == fraction + power && rest[1 + |fraction|..] == power
  {
    var rest := Dotted(fraction) + power;
    assert rest == "." + (fraction + power);
    assert rest[1..][|fraction|..] == power;
  }

  lemma MantissaParts(whole: string, fraction: string, power: string)
    requires AllDigits(whole) && AllDigits(fraction)
    requires power == "" || power[0] == 'E'
    ensures Mantissa(whole + Dotted(fraction) + power) == (whole, fraction, power)
  {
    hide DigitRun, NatText, NatOf, Mantissa;
    var rest := Dotted(fraction) + power;
    assert whole + Dotted(fraction) + power == whole + rest;
    assert rest == "" || !IsDigit(rest[0]);
    RunSplits(whole, rest);
    MantissaSplits(whole + rest, whole, rest);
    if fraction != "" {
      RunSplits(fraction, power);
      AfterPoint(fraction, power);
    }
  }

  function Sign(negative: bool): string {
    if negative then "-" else ""
  }

  lemma SignedParts(negative: bool, body: string)
    requires body != "" && IsDigit(body[0])
    ensures Signed(Sign(negative) + body) == (negative, body)
  {
    var s := Sign(negative) + body;
    if negative { assert s[1..] == body; } else { assert s == body; }
  }

  lemma FromParts(s: string, negative: bool, body: string, whole: string, fraction: string,
                  power: string, e: int)
    requires Signed(s) == (negative, body)
    requires Mantissa(body) == (whole, fraction, power) && whole != ""
    requires ExponentOf(power) == Some(e)
    ensures AllDigits(whole + fraction)
    ensures FromText(s) == Some(Decimal(negative, NatOf(whole + fraction), e - |fraction|))
  {
  }

  /** How the reader takes apart a text of the printer's shape. */
  lemma ReadParts(negative: bool, whole: string, fraction: string, power: string, e: int)
    requires AllDigits(whole) && AllDigits(fraction) && whole != ""
    requires power == "" || power[0] == 'E'
    requires ExponentOf(power) == Some(e)
    ensures AllDigits(whole + fraction)
    ensures FromText(Sign(negative) + (whole + Dotted(fraction) + power))
            == Some(Decimal(negative, NatOf(whole + fraction), e - |fraction|))
  {
    var body := whole + Dotted(fraction) + power;
    assert body[0] == whole[0];
    SignedParts(negative, body);
    MantissaParts(whole, fraction, power);
    FromParts(Sign(negative) + body, negative, body, whole, fraction, power, e);
  }

  /** Where the printer puts the decimal point, counted from the first digit. */
  function DotPlace(d: Decimal): int {
    var leftDigits := d.exponent + |NatText(d.coefficient)|;
    if d.exponent <= 0 && leftDigits > -6 then leftDigits else 1
  }

  /** The digits printed before and after the point. */
  function Halves(d: Decimal): (r: (string, string))
    ensures r.0 != "" && AllDigits(r.0) && AllDigits(r.1)
    ensures |r.1| == |NatText(d.coefficient)| - DotPlace(d)
  {
    var digits := NatText(d.coefficient);
    if DotPlace(d) <= 0 then ("0", Zeros(-DotPlace(d)) + digits)
    else (digits[..DotPlace(d)], digits[DotPlace(d)..])
  }

  lemma HalvesDenoteCoefficient(d: Decimal)
    ensures NatOf(Halves(d).0 + Halves(d).1) == d.coefficient
  {
    var digits := NatText(d.coefficient);
    var (whole, fraction) := Halves(d);
    NatRoundTrip(d.coefficient);
    hide NatText, NatOf;
    if DotPlace(d) <= 0 {
      LeadingZeros(1 - DotPlace(d), digits);
      assert whole + fraction == Zeros(1 - DotPlace(d)) + digits;
    } else {
      var k := DotPlace(d);
      assert whole == digits[..k] && fraction == digits[k..];
      assert digits[..k] + digits[k..] == digits;
    }
  }

  /** `str(d)`: plain notation when the exponent is not positive and the number is
      not too small, scientific notation otherwise. */
  function ToText(d: Decimal): string {
    var power := d.exponent + |NatText(d.coefficient)| - DotPlace(d);
    var (whole, fraction) := Halves(d);
    Sign(d.negative) + (whole + Dotted(fraction) + if power == 0 then "" else "E" + SignedText(power))
  }

  /** Printing an amount and reading it back gives the same sign, the same digits and
      the same exponent, trailing zeros included, for every finite decimal. */
  lemma TextRoundTrip(d: Decimal)
    ensures FromText(ToText(d)) == Some(d)
  {
    hide FromText, Halves, DotPlace, NatText, NatOf, ExponentOf, SignedText;
    var e := d.exponent + |NatText(d.coefficient)| - DotPlace(d);
    var power := if e == 0 then "" else "E" + SignedText(e);
    if e != 0 { ExponentRoundTrip(e); } else { NoExponent(); }
    HalvesDenoteCoefficient(d);
    ReadParts(d.negative, Halves(d).0, Halves(d).1, power, e);
  }

  // ----- Plain notation -----

  lemma WholeIsRead(whole: string)
    requires AllDigits(whole) && whole != ""
    ensures FromText(whole) == Some(Decimal(false, NatOf(whole), 0))
  {
    hide FromText, NatOf, ExponentOf;
    NoExponent();
    ReadParts(false, whole, "", "", 0);
    assert whole + "" == whole && Sign(false) + (whole + Dotted("") + "") == whole;
  }

  lemma PlacesAreRead(negative: bool, whole: string, fraction: string)
    requires AllDigits(whole) && AllDigits(fraction) && whole != "" && fraction != ""
    ensures AllDigits(whole + fraction)
    ensures FromText((if negative then "-" else "") + (whole + "." + fraction))
            == Some(Decimal(negative, NatOf(whole + fraction), -|fraction|))
  {
    hide FromText, NatOf, ExponentOf;
    NoExponent();
    ReadParts(negative, whole, fraction, "", 0);
    assert whole + Dotted(fraction) + "" == whole + "." + fraction;
  }

  lemma PowersAreRead(whole: string, e: int)
    requires AllDigits(whole) && whole != ""
    ensures FromText(whole + "E" + SignedText(e)) == Some(Decimal(false, NatOf(whole), e))
  {
    hide FromText, NatOf, ExponentOf, SignedText;
    ExponentRoundTrip(e);
    ReadParts(false, whole, "", "E" + SignedText(e), e);
    assert whole + "" == whole;
    assert Sign(false) + (whole + Dotted("") + ("E" + SignedText(e))) == whole + "E" + SignedText(e);
  }

  /** Digits are a whole number; digits after a point are as many decimal places; `E` and a
      signed number move the point; a minus in front is a sign. */
  lemma NumbersAreRead(whole: string, fraction: string, e: int)
    requires AllDigits(whole) && AllDigits(fraction) && whole != "" && fraction != ""
    ensures AllDigits(whole + fraction)
    ensures FromText(whole) == Some(Decimal(false, NatOf(whole), 0))
    ensures FromText(whole + "." + fraction) == Some(Decimal(false, NatOf(whole + fraction), -|fraction|))
    ensures FromText("-" + (whole + "." + fraction)) == Some(Decimal(true, NatOf(whole + fraction), -|fraction|))
    ensures FromText(whole + "E" + SignedText(e)) == Some(Decimal(false, NatOf(whole), e))
  {
    WholeIsRead(whole);
    PlacesAreRead(false, whole, fraction);
    PlacesAreRead(true, whole, fraction);
    PowersAreRead(whole, e);
    hide FromText, NatOf, SignedText;
    assert "" + (whole + "." + fraction) == whole + "." + fraction;
  }

  /** An amount with decimal places is printed with its digits around the point, trailing
      zeros included. */
  lemma AmountsArePrintedPlainly(whole: nat, c: nat, places: int)
    requires |NatText(c)| > places > 0
    ensures var digits := NatText(c);
            ToText(Decimal(false, c, -places)) == digits[..|digits| - places] + "." + digits[|digits| - places..]
    ensures ToText(Decimal(false, whole, 0)) == NatText(whole)
  {
    var digits := NatText(whole);
    assert digits[..|digits|] == digits && digits[|digits|..] == "";
    hide NatText;
  }
}
