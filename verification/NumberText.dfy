// Numbers as ECMAScript prints them, and the decimal literals it reads.
module NumberText {
  import opened Basics
  import opened Wrappers
  import opened Decimals

  // A double: when it is finite and not zero, its shortest digits and the exponent
  // of the first one.
  datatype Double = NotANumber | Infinite(neg: bool) | Zero(neg: bool) | Finite(neg: bool, digits: string, exp: int) {
    ghost predicate Valid() {
      Finite? ==> digits != "" && AllDigits(digits) && digits[0] != '0'
    }
  }

  // (-1)^neg * mantissa * 10^power
  datatype Decimal = Decimal(neg: bool, mantissa: nat, power: int)

  // Equal once both are brought to the lower power.
  predicate SameValue(a: Decimal, b: Decimal) {
    var low := if a.power <= b.power then a.power else b.power;
    a.neg == b.neg && a.mantissa * Pow10(a.power - low) == b.mantissa * Pow10(b.power - low)
  }

  // ----- literals ------------------------------------------------------------------

  datatype Exponent = Exponent(mark: char, sign: string, digits: string) {
    ghost predicate WellFormed() {
      mark in {'e', 'E'} && IsSign(sign) && digits != "" && AllDigits(digits)
    }
  }

  // StrDecimalLiteral of section 7.1.4.1 of ECMA-262, but for Infinity.
  datatype Literal = Literal(sign: string, whole: string, point: bool, fraction: string, exponent: Option<Exponent>) {
    ghost predicate WellFormed() {
      && IsSign(sign) && AllDigits(whole) && AllDigits(fraction)
      && whole + fraction != "" && (!point ==> fraction == "")
      && (exponent.Some? ==> exponent.value.WellFormed())
    }

    function Mantissa(): string {
      whole + (if point then "." else "") + fraction
    }

    function Text(): string {
      sign + (Mantissa() + ExponentText(exponent))
    }

    function Denotes(): Decimal
      requires AllDigits(whole + fraction) && (exponent.Some? ==> AllDigits(exponent.value.digits))
    {
      var e: int :=
        if exponent.None? then 0 else Value(exponent.value.digits) * if exponent.value.sign == "-" then -1 else 1;
      Decimal(sign == "-", Value(whole + fraction), e - |fraction|)
    }
  }

  predicate IsSign(s: string) {
    s == "" || s == "+" || s == "-"
  }

  function ExponentText(exponent: Option<Exponent>): string {
    match exponent
    case None => ""
    case Some(e) => [e.mark] + (e.sign + e.digits)
  }

  // ----- recognising -----------------------------------------------------------------

  // The sign that `s` starts with, if any, and the rest.
  function TakeSign(s: string): (string, string) {
    if s != "" && (s[0] == '+' || s[0] == '-') then (s[..1], s[1..]) else ("", s)
  }

  // The digits that `s` starts with, and the rest.
  function TakeDigits(s: string): (r: (string, string))
    ensures s == r.0 + r.1 && AllDigits(r.0) && (r.1 != "" ==> !IsDigit(r.1[0]))
  {
    if s != "" && IsDigit(s[0]) then
      var (digits, rest) := TakeDigits(s[1..]);
      ([s[0]] + digits, rest)
    else ("", s)
  }

  // The exponent part that `s` is, if it is one; it may be empty.
  function ScanExponent(s: string): Option<Option<Exponent>> {
    if s == "" then Some(None)
    else if s[0] != 'e' && s[0] != 'E' then None
    else
      var (sign, unsigned) := TakeSign(s[1..]);
      var (digits, rest) := TakeDigits(unsigned);
      if digits == "" || rest != "" then None else Some(Some(Exponent(s[0], sign, digits)))
  }

  // The digits after a point, if `s` starts with one.
  function TakeFraction(s: string): (bool, string, string) {
    if s != "" && s[0] == '.' then
      var (digits, rest) := TakeDigits(s[1..]);
      (true, digits, rest)
    else (false, "", s)
  }

  // The literal that `s` is, if it is one.
  function Scan(s: string): Option<Literal> {
    var (sign, unsigned) := TakeSign(s);
    var (whole, afterWhole) := TakeDigits(unsigned);
    var (point, fraction, rest) := TakeFraction(afterWhole);
    if whole + fraction == "" then None
    else match ScanExponent(rest)
      case None => None
      case Some(exponent) => Some(Literal(sign, whole, point, fraction, exponent))
  }

  // Accepts exactly the literals.
  method IsValidJsDecimal(s: string) returns (ok: bool)
    ensures ok == Scan(s).Some?
    ensures ok <==> exists literal: Literal :: literal.WellFormed() && literal.Text() == s
  {
    ok := Recognise(s);
    if ok {
      ScannedIsLiteral(s);
    }
    forall literal: Literal | literal.WellFormed() && literal.Text() == s
      ensures Scan(s).Some?
    {
      LiteralIsScanned(literal);
    }
  }

  method SkipDigits(s: string, i: nat) returns (j: nat)
    requires i <= |s|
    ensures i <= j <= |s| && TakeDigits(s[i..]) == (s[i..j], s[j..])
  {
    j := i;
    while j < |s| && IsDigit(s[j])
      invariant i <= j <= |s| && AllDigits(s[i..j])
    {
      assert s[i..j + 1] == s[i..j] + [s[j]];
      j := j + 1;
    }
    assert s[i..] == s[i..j] + s[j..];
    DigitsAreTaken(s[i..j], s[j..]);
  }

  method Recognise(s: string) returns (ok: bool)
    ensures ok == Scan(s).Some?
  {
    hide TakeDigits, ScanExponent, AllDigits;
    var i := 0;
    if i < |s| && (s[i] == '+' || s[i] == '-') {
      i := i + 1;
    }
    assert TakeSign(s).1 == s[i..];
    var j := SkipDigits(s, i);
    var mantissaDigits := j - i;
    if j < |s| && s[j] == '.' {
      assert s[j..][1..] == s[j + 1..];
      i := j + 1;
      j := SkipDigits(s, i);
      mantissaDigits := mantissaDigits + (j - i);
    }
    if mantissaDigits == 0 {
      return false;
    }
    ok := EndsInExponent(s, j);
  }

  method EndsInExponent(s: string, i: nat) returns (ok: bool)
    requires i <= |s|
    ensures ok == ScanExponent(s[i..]).Some?
  {
    if i < |s| && (s[i] == 'e' || s[i] == 'E') {
      var j := i + 1;
      assert s[i..][1..] == s[j..];
      if j < |s| && (s[j] == '+' || s[j] == '-') {
        j := j + 1;
      }
      assert TakeSign(s[i + 1..]).1 == s[j..];
      var k := SkipDigits(s, j);
      if k == j {
        return false;
      }
      return k == |s|;
    }
    return i == |s|;
  }

  lemma {:induction false} DigitsAreTaken(digits: string, rest: string)
    requires AllDigits(digits) && (rest != "" ==> !IsDigit(rest[0]))
    ensures TakeDigits(digits + rest) == (digits, rest)
  {
    if digits == "" {
      assert digits + rest == rest;
    } else {
      assert (digits + rest)[1..] == digits[1..] + rest;
      assert (digits + rest)[0] == digits[0] && digits == [digits[0]] + digits[1..];
      DigitsAreTaken(digits[1..], rest);
    }
  }

  lemma SignIsTaken(sign: string, rest: string)
    requires IsSign(sign) && rest != "" && rest[0] != '+' && rest[0] != '-'
    ensures TakeSign(sign + rest) == (sign, rest)
  {
    assert sign == "" ==> sign + rest == rest;
  }

  lemma ScannedExponentSpells(s: string)
    requires ScanExponent(s).Some?
    ensures ExponentText(ScanExponent(s).value) == s
    ensures ScanExponent(s).value.Some? ==> ScanExponent(s).value.value.WellFormed()
  {
    if s != "" {
      var (sign, unsigned) := TakeSign(s[1..]);
      assert sign + unsigned == s[1..];
      assert s == [s[0]] + s[1..];
    }
  }

  function PointText(point: bool): string {
    if point then "." else ""
  }

  lemma TextInPieces(literal: Literal)
    ensures literal.Text() ==
      literal.sign + (literal.whole + (PointText(literal.point) + (literal.fraction + ExponentText(literal.exponent))))
  {
    hide ExponentText;
    FourPieces(literal.whole, PointText(literal.point), literal.fraction, ExponentText(literal.exponent));
  }

  lemma FourPieces(a: string, b: string, c: string, d: string)
    ensures a + b + c + d == a + (b + (c + d))
  {
    Assoc(a + b, c, d);
    Assoc(a, b, c + d);
  }

  lemma FractionSpells(s: string)
    ensures
      var (point, fraction, rest) := TakeFraction(s);
      s == PointText(point) + (fraction + rest) && AllDigits(fraction) && (!point ==> fraction == "")
  {
    if s != "" {
      assert s == [s[0]] + s[1..];
    }
  }

  // What the scan returns is a literal, and spells the text it was given.
  lemma ScannedIsLiteral(s: string)
    requires Scan(s).Some?
    ensures Scan(s).value.WellFormed() && Scan(s).value.Text() == s
  {
    var literal := Scan(s).value;
    var unsigned := TakeSign(s).1;
    var afterWhole := TakeDigits(unsigned).1;
    FractionSpells(afterWhole);
    ScannedExponentSpells(TakeFraction(afterWhole).2);
    TextInPieces(literal);
    Spells(s, literal, unsigned, afterWhole, TakeFraction(afterWhole).2);
  }

  lemma Spells(s: string, literal: Literal, unsigned: string, afterWhole: string, rest: string)
    requires TakeSign(s) == (literal.sign, unsigned) && unsigned == literal.whole + afterWhole
    requires afterWhole == PointText(literal.point) + (literal.fraction + rest) &&
      rest == ExponentText(literal.exponent)
    ensures literal.sign +
      (literal.whole + (PointText(literal.point) + (literal.fraction + ExponentText(literal.exponent)))) == s
    ensures IsSign(literal.sign)
  {
    assert s == literal.sign + unsigned;
  }

  lemma ExponentIsScanned(exponent: Option<Exponent>)
    requires exponent.Some? ==> exponent.value.WellFormed()
    ensures ScanExponent(ExponentText(exponent)) == Some(exponent)
  {
    if exponent.Some? {
      var e := exponent.value;
      assert ExponentText(exponent)[1..] == e.sign + e.digits;
      SignIsTaken(e.sign, e.digits);
      assert e.digits + "" == e.digits;
      DigitsAreTaken(e.digits, "");
    }
  }

  lemma FractionIsTaken(point: bool, fraction: string, rest: string)
    requires AllDigits(fraction) && (!point ==> fraction == "")
    requires rest != "" ==> !IsDigit(rest[0]) && rest[0] != '.'
    ensures TakeFraction(PointText(point) + (fraction + rest)) == (point, fraction, rest)
  {
    var s := PointText(point) + (fraction + rest);
    if point {
      assert s[1..] == fraction + rest;
      DigitsAreTaken(fraction, rest);
    } else {
      assert s == rest;
    }
  }

  // Every literal is scanned as itself: the grammar is unambiguous.
  lemma LiteralIsScanned(literal: Literal)
    requires literal.WellFormed()
    ensures Scan(literal.Text()) == Some(literal)
  {
    var rest := ExponentText(literal.exponent);
    var afterWhole := PointText(literal.point) + (literal.fraction + rest);
    TextInPieces(literal);
    assert literal.whole != "" || literal.point;
    SignIsTaken(literal.sign, literal.whole + afterWhole);
    DigitsAreTaken(literal.whole, afterWhole);
    FractionIsTaken(literal.point, literal.fraction, rest);
    ExponentIsScanned(literal.exponent);
    ScanInPieces(literal.Text(), literal, literal.whole + afterWhole, afterWhole, rest);
  }

  lemma ScanInPieces(s: string, literal: Literal, unsigned: string, afterWhole: string, rest: string)
    requires TakeSign(s) == (literal.sign, unsigned) && TakeDigits(unsigned) == (literal.whole, afterWhole)
    requires TakeFraction(afterWhole) == (literal.point, literal.fraction, rest) &&
      literal.whole + literal.fraction != ""
    requires ScanExponent(rest) == Some(literal.exponent)
    ensures Scan(s) == Some(literal)
  {
  }

  // ----- printing ----------------------------------------------------------------------

  function Zeros(n: nat): string {
    seq(n, _ => '0')
  }

  function Magnitude(n: int): nat {
    if n < 0 then -n else n
  }

  // Number::toString, section 6.1.6.1.20 of ECMA-262; `n` is where the point stands.
  function Layout(digits: string, n: int): string
    requires digits != ""
  {
    var k := |digits|;
    if k <= n <= 21 then digits + Zeros(n - k)
    else if 0 < n <= 21 then digits[..n] + "." + digits[n..]
    else if -6 < n <= 0 then "0." + Zeros(-n) + digits
    else (if k == 1 then digits else digits[..1] + "." + digits[1..])
         + "e" + (if n - 1 >= 0 then "+" else "-") + Padded(Magnitude(n - 1), 1)
  }

  function NumberText(x: Double): string
    requires x.Finite? ==> x.digits != ""
  {
    match x
    case NotANumber => "NaN"
    case Zero(_) => "0"
    case Infinite(neg) => if neg then "-Infinity" else "Infinity"
    case Finite(neg, digits, exp) => (if neg then "-" else "") + Layout(digits, exp + 1)
  }

  method PushZeros(s: string, n: nat) returns (padded: string)
    ensures padded == s + Zeros(n)
  {
    padded := s;
    for i := 0 to n
      invariant padded == s + Zeros(i)
    {
      assert Zeros(i + 1) == Zeros(i) + "0";
      padded := padded + "0";
    }
  }

  method JsF64ToString(x: Double) returns (s: string)
    requires x.Valid()
    ensures s == NumberText(x)
  {
    if x.NotANumber? {
      return "NaN";
    }
    if x.Zero? {
      return "0";
    }
    if x.Infinite? {
      return if !x.neg then "Infinity" else "-Infinity";
    }
    var digits := x.digits;
    var k := |digits|;
    var n := x.exp + 1;
    var body;
    if k <= n && n <= 21 {
      body := PushZeros(digits, n - k);
    } else if 0 < n && n <= 21 {
      body := digits[..n] + "." + digits[n..];
    } else if -6 < n && n <= 0 {
      body := PushZeros("0.", -n);
      body := body + digits;
    } else {
      var e := n - 1;
      var mantissa := if k == 1 then digits else digits[..1] + "." + digits[1..];
      body := mantissa + "e" + (if e >= 0 then "+" else "-") + Padded(Magnitude(e), 1);
    }
    s := if x.neg then "-" + body else body;
  }

  // ----- what is printed is a literal of the same value ------------------------------------

  // The value of a finite double: its digits, the point after the first of `n`.
  function ValueOf(x: Double): Decimal
    requires x.Finite? && AllDigits(x.digits)
  {
    Decimal(x.neg, Value(x.digits), x.exp + 1 - |x.digits|)
  }

  // The literal that each layout spells.
  function PrintedLiteral(x: Double): Literal
    requires x.Finite? && x.digits != ""
  {
    var sign, digits, k, n := if x.neg then "-" else "", x.digits, |x.digits|, x.exp + 1;
    if k <= n <= 21 then Literal(sign, digits + Zeros(n - k), false, "", None)
    else if 0 < n <= 21 then Literal(sign, digits[..n], true, digits[n..], None)
    else if -6 < n <= 0 then Literal(sign, "0", true, Zeros(-n) + digits, None)
    else
      Literal(sign, digits[..1], k > 1, digits[1..],
              Some(Exponent('e', if n - 1 >= 0 then "+" else "-", Padded(Magnitude(n - 1), 1))))
  }

  lemma PrintedIsWellFormed(x: Double)
    requires x.Finite? && x.Valid()
    ensures PrintedLiteral(x).WellFormed()
  {
    hide Magnitude, Padded;
    PaddedIsItsNumber(Magnitude(x.exp), 1);
  }

  lemma FixedText(x: Double)
    requires x.Finite? && x.digits != "" && -6 < x.exp + 1 <= 21
    ensures PrintedLiteral(x).Mantissa() == Layout(x.digits, x.exp + 1) && PrintedLiteral(x).exponent == None
  {
    var digits, n := x.digits, x.exp + 1;
    if |digits| <= n {
      assert digits + Zeros(n - |digits|) + "" + "" == digits + Zeros(n - |digits|);
    } else if n <= 0 {
      assert "0" + "." + (Zeros(-n) + digits) == "0." + Zeros(-n) + digits;
    }
  }

  lemma ExponentialText(x: Double)
    requires x.Finite? && x.digits != "" && !(-6 < x.exp + 1 <= 21)
    ensures PrintedLiteral(x).Mantissa() + ExponentText(PrintedLiteral(x).exponent) == Layout(x.digits, x.exp + 1)
  {
    var mantissa, e := if |x.digits| == 1 then x.digits else x.digits[..1] + "." + x.digits[1..], x.exp;
    assert PrintedLiteral(x).Mantissa() == mantissa;
    var sign, tail := if e >= 0 then "+" else "-", Padded(Magnitude(e), 1);
    assert mantissa + (['e'] + (sign + tail)) == mantissa + "e" + sign + tail;
  }

  lemma PrintedIsItsText(x: Double)
    requires x.Finite? && x.Valid()
    ensures PrintedLiteral(x).Text() == NumberText(x)
  {
    if -6 < x.exp + 1 <= 21 {
      FixedText(x);
      assert Layout(x.digits, x.exp + 1) + "" == Layout(x.digits, x.exp + 1);
    } else {
      ExponentialText(x);
    }
  }

  lemma {:induction false} TrailingZeros(digits: string, z: nat)
    requires AllDigits(digits)
    ensures AllDigits(digits + Zeros(z)) && Value(digits + Zeros(z)) == Value(digits) * Pow10(z)
  {
    if z == 0 {
      assert digits + Zeros(0) == digits;
    } else {
      TrailingZeros(digits, z - 1);
      assert digits + Zeros(z) == (digits + Zeros(z - 1)) + "0";
      ValueSnoc(digits + Zeros(z - 1), '0');
    }
  }

  lemma {:induction false} LeadingZeros(digits: string, z: nat)
    requires AllDigits(digits)
    ensures AllDigits(Zeros(z) + digits) && Value(Zeros(z) + digits) == Value(digits)
  {
    if digits == "" {
      TrailingZeros("", z);
      assert "" + Zeros(z) == Zeros(z) + digits;
    } else {
      var init, last := digits[..|digits| - 1], digits[|digits| - 1];
      LeadingZeros(init, z);
      assert Zeros(z) + digits == (Zeros(z) + init) + [last] && digits == init + [last];
      ValueSnoc(Zeros(z) + init, last);
      ValueSnoc(init, last);
    }
  }

  lemma IntegralValue(x: Double, literal: Literal)
    requires x.Finite? && x.Valid() && |x.digits| <= x.exp + 1
    requires literal == Literal(if x.neg then "-" else "", x.digits + Zeros(x.exp + 1 - |x.digits|), false, "", None)
    ensures literal.WellFormed() && SameValue(literal.Denotes(), ValueOf(x))
  {
    var z := x.exp + 1 - |x.digits|;
    TrailingZeros(x.digits, z);
    assert literal.whole + "" == literal.whole;
    assert Pow10(0) == 1;
  }

  // With a point or an exponent, the digits are kept and only leading zeros added.
  lemma PointedValue(x: Double, literal: Literal, zeros: nat, e: int)
    requires x.Finite? && x.Valid() && literal.WellFormed()
    requires literal.whole + literal.fraction == Zeros(zeros) + x.digits && (literal.sign == "-" <==> x.neg)
    requires literal.Denotes().power == e - |literal.fraction| && e - |literal.fraction| == x.exp + 1 - |x.digits|
    ensures literal.Denotes() == ValueOf(x)
  {
    LeadingZeros(x.digits, zeros);
  }

  lemma DigitsCut(digits: string, n: nat)
    requires n <= |digits|
    ensures digits[..n] + digits[n..] == Zeros(0) + digits
  {
  }

  lemma OneMoreZero(digits: string, z: nat)
    ensures "0" + (Zeros(z) + digits) == Zeros(z + 1) + digits
  {
  }

  // The point inside the digits.
  lemma PointInside(x: Double)
    requires x.Finite? && x.Valid() && 0 < x.exp + 1 <= 21 && x.exp + 1 < |x.digits|
    ensures PrintedLiteral(x).WellFormed() && PrintedLiteral(x).Denotes() == ValueOf(x)
  {
    hide Value, Zeros, AllDigits, Literal.WellFormed;
    PrintedIsWellFormed(x);
    DigitsCut(x.digits, x.exp + 1);
    PointedValue(x, PrintedLiteral(x), 0, 0);
  }

  // The point before them.
  lemma PointBefore(x: Double)
    requires x.Finite? && x.Valid() && -6 < x.exp + 1 <= 0
    ensures PrintedLiteral(x).WellFormed() && PrintedLiteral(x).Denotes() == ValueOf(x)
  {
    hide Value, AllDigits, Literal.WellFormed;
    PrintedIsWellFormed(x);
    OneMoreZero(x.digits, -(x.exp + 1));
    PointedValue(x, PrintedLiteral(x), 1 - (x.exp + 1), 0);
  }

  // The point after the first, and an exponent.
  lemma PointAndExponent(x: Double)
    requires x.Finite? && x.Valid() && !(-6 < x.exp + 1 <= 21)
    ensures PrintedLiteral(x).WellFormed() && PrintedLiteral(x).Denotes() == ValueOf(x)
  {
    hide Value, Zeros, Padded, AllDigits, Literal.WellFormed;
    PrintedIsWellFormed(x);
    DigitsCut(x.digits, 1);
    PaddedIsItsNumber(Magnitude(x.exp), 1);
    PointedValue(x, PrintedLiteral(x), 0, x.exp);
  }

  lemma SameAsItself(a: Decimal)
    ensures SameValue(a, a)
  {
  }

  // Every finite number prints as a literal of its own value.
  lemma PrintedDenotesTheNumber(x: Double)
    requires x.Finite? && x.Valid()
    ensures PrintedLiteral(x).WellFormed() && SameValue(PrintedLiteral(x).Denotes(), ValueOf(x))
  {
    hide Value, SameValue, Literal.WellFormed, Literal.Denotes, ValueOf;
    var n := x.exp + 1;
    if |x.digits| <= n <= 21 {
      IntegralValue(x, PrintedLiteral(x));
    } else {
      SameAsItself(ValueOf(x));
      if 0 < n <= 21 {
        PointInside(x);
      } else if -6 < n <= 0 {
        PointBefore(x);
      } else {
        PointAndExponent(x);
      }
    }
  }

  // ----- reading back ------------------------------------------------------------------------

  datatype Parsed = NotNumeric | Unbounded(neg: bool) | Exactly(value: Decimal) | Radix(base: nat, digits: string)

  predicate HasRadix(t: string) {
    |t| >= 2 && t[0] == '0' && t[1] in {'x', 'X', 'o', 'O', 'b', 'B'}
  }

  // StringToNumber on a text without white space at its ends; the digits of a radix
  // literal are left as they are.
  function ParseJsNumber(t: string): Parsed {
    if t == "" then Exactly(Decimal(false, 0, 0))
    else
      var (sign, unsigned) := TakeSign(t);
      if unsigned == "Infinity" then Unbounded(sign == "-")
      else if HasRadix(t) then
        Radix(if t[1] in {'x', 'X'} then 16 else if t[1] in {'o', 'O'} then 8 else 2, t[2..])
      else match Scan(t)
        case Some(literal) => ScannedIsLiteral(t); Exactly(literal.Denotes())
        case None => NotNumeric
  }

  lemma LiteralsHaveNoRadix(literal: Literal)
    requires literal.WellFormed()
    ensures !HasRadix(literal.Text())
  {
    TextInPieces(literal);
    if |literal.Text()| >= 2 && literal.Text()[0] == '0' {
      SecondCharacter(literal);
    }
  }

  lemma SecondCharacter(literal: Literal)
    requires literal.WellFormed() && |literal.Text()| >= 2 && literal.Text()[0] == '0'
    ensures IsDigit(literal.Text()[1]) || literal.Text()[1] in {'.', 'e', 'E'}
  {
    TextInPieces(literal);
    var rest := ExponentText(literal.exponent);
    var afterWhole := PointText(literal.point) + (literal.fraction + rest);
    assert literal.sign == "" && literal.whole != "";
    assert literal.Text() == literal.whole + afterWhole;
    if |literal.whole| == 1 {
      assert literal.Text()[1] == afterWhole[0];
    } else {
      assert literal.Text()[1] == literal.whole[1];
    }
  }

  lemma UnsignedLiteral(literal: Literal)
    requires literal.WellFormed()
    ensures TakeSign(literal.Text()).1 != "Infinity" && literal.Text() != ""
  {
    TextInPieces(literal);
    var unsigned := literal.whole + (PointText(literal.point) + (literal.fraction + ExponentText(literal.exponent)));
    assert literal.whole != "" || literal.point;
    assert IsDigit(unsigned[0]) || unsigned[0] == '.';
    SignIsTaken(literal.sign, unsigned);
  }

  // A literal parses to what it denotes.
  lemma LiteralsParse(literal: Literal)
    requires literal.WellFormed()
    ensures ParseJsNumber(literal.Text()) == Exactly(literal.Denotes())
  {
    LiteralIsScanned(literal);
    LiteralsHaveNoRadix(literal);
    UnsignedLiteral(literal);
    ParsesAsScanned(literal.Text(), literal);
  }

  lemma ParsesAsScanned(t: string, literal: Literal)
    requires t != "" && TakeSign(t).1 != "Infinity" && !HasRadix(t) && Scan(t) == Some(literal) && literal.WellFormed()
    ensures ParseJsNumber(t) == Exactly(literal.Denotes())
  {
  }

  // What is printed for any double parses to a number of the same value.
  lemma PrintedParsesBack(x: Double)
    requires x.Valid()
    ensures x.Finite? ==>
      ParseJsNumber(NumberText(x)).Exactly? && SameValue(ParseJsNumber(NumberText(x)).value, ValueOf(x))
    ensures x.Zero? ==> ParseJsNumber(NumberText(x)) == Exactly(Decimal(false, 0, 0))
    ensures x.Infinite? ==> ParseJsNumber(NumberText(x)) == Unbounded(x.neg)
    ensures x.NotANumber? ==> ParseJsNumber(NumberText(x)) == NotNumeric
  {
    match x
    case Finite(_, _, _) =>
      PrintedIsItsText(x);
      PrintedDenotesTheNumber(x);
      LiteralsParse(PrintedLiteral(x));
    case Zero(_) =>
      var zero := Literal("", "0", false, "", None);
      assert zero.Text() == "0";
      LiteralsParse(zero);
      assert Value("0") == 0 by { LeadingZeros("", 1); assert Zeros(1) + "" == "0"; }
    case Infinite(neg) =>
      assert "-Infinity"[1..] == "Infinity";
    case NotANumber =>
  }

  // ----- and it is the plain one ---------------------------------------------------------------

  predicate NoLeadingZero(s: string) {
    s == "0" || (s != "" && s[0] != '0')
  }

  lemma {:induction false} NothingPadded(n: nat)
    ensures NoLeadingZero(Padded(n, 1)) && (n > 0 ==> Padded(n, 1)[0] != '0')
    decreases n
  {
    if n >= 10 {
      PaddedToOne(n / 10);
      NothingPadded(n / 10);
      assert Padded(n, 1) == Padded(n / 10, 0) + [Digit(n % 10)];
    }
  }

  lemma {:induction false} PaddedToOne(n: nat)
    ensures Padded(n, 0) == Padded(n, 1)
    decreases n
  {
    if n >= 10 {
      PaddedToOne(n / 10);
    }
  }

  // The literal has no zero that could be left out, but for those of the digits; it has an
  // exponent only for what is below a millionth or has more than 21 digits before the point,
  // and then one digit before the point.
  ghost predicate Plain(x: Double, l: Literal)
    requires x.Finite? && x.digits != ""
  {
    && l.sign == (if x.neg then "-" else "") && NoLeadingZero(l.whole)
    && (l.point <==> l.fraction != "")
    && (l.fraction != "" ==> l.fraction[|l.fraction| - 1] == x.digits[|x.digits| - 1])
    && (l.exponent.Some? <==> x.exp < -6 || x.exp >= 21)
    && (l.exponent.Some? ==>
         && |l.whole| == 1 && l.exponent.value.mark == 'e' && l.exponent.value.sign == (if x.exp < 0 then "-" else "+")
         && NoLeadingZero(l.exponent.value.digits))
  }

  lemma PrintedLiteralIsPlain(x: Double)
    requires x.Finite? && x.Valid()
    ensures Plain(x, PrintedLiteral(x))
  {
    NothingPadded(Magnitude(x.exp));
    hide Padded, Magnitude, AllDigits;
    var digits, n, l := x.digits, x.exp + 1, PrintedLiteral(x);
    if -6 < n <= 0 {
      assert l.fraction == Zeros(-n) + digits;
    }
  }

  // What is printed has one reading, and that is the plain literal of the number; a zero of
  // either sign is one digit.
  lemma PrintedIsPlain(x: Double)
    requires x.Valid()
    ensures x.Zero? ==> NumberText(x) == "0"
    ensures x.Finite? ==> Scan(NumberText(x)).Some? && Plain(x, Scan(NumberText(x)).value)
  {
    if x.Finite? {
      PrintedIsItsText(x);
      PrintedDenotesTheNumber(x);
      LiteralIsScanned(PrintedLiteral(x));
      PrintedLiteralIsPlain(x);
    }
    hide Plain, Scan, Literal.WellFormed, Literal.Text, Literal.Denotes, SameValue;
  }
}
