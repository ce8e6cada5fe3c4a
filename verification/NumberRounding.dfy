// The numbers that decimals stand for, and the double that a printed text reads back as.
module NumberRounding {
  import opened Decimals
  import opened Numbers = NumberText

  lemma {:induction false} Pow10IsPositive(k: nat)
    ensures Pow10(k) > 0
  {
    if k > 0 {
      Pow10IsPositive(k - 1);
    }
  }

  function Scale(power: int): real {
    if power >= 0 then Pow10(power) as real
    else Pow10IsPositive(-power); 1.0 / Pow10(-power) as real
  }

  // What a decimal stands for, without its sign.
  function Size(d: Decimal): real {
    d.mantissa as real * Scale(d.power)
  }

  lemma ScaleStep(power: int)
    ensures Scale(power + 1) == 10.0 * Scale(power) && Scale(power) > 0.0
  {
    if power >= 0 {
      Pow10IsPositive(power);
    } else {
      Pow10IsPositive(-power);
      Pow10IsPositive(-power - 1);
      TenfoldLess(Pow10(-power - 1) as real);
    }
  }

  lemma TenfoldLess(x: real)
    requires x > 0.0
    ensures 10.0 * (1.0 / (10.0 * x)) == 1.0 / x
  {
  }

  lemma {:induction false} ScaleShift(low: int, k: nat)
    ensures Scale(low + k) == Pow10(k) as real * Scale(low)
  {
    hide Scale;
    if k > 0 {
      var p, s := Pow10(k - 1) as real, Scale(low);
      ScaleShift(low, k - 1);
      ScaleStep(low + (k - 1));
      assert low + (k - 1) + 1 == low + k;
      Tenfold(p, s);
      assert Pow10(k) as real == 10.0 * p;
    } else {
      assert 1.0 * Scale(low) == Scale(low);
    }
  }

  lemma Tenfold(p: real, s: real)
    ensures 10.0 * (p * s) == 10.0 * p * s
  {
  }

  // Brought to a lower power, a decimal stands for the same number.
  lemma SizeAt(d: Decimal, low: int)
    requires low <= d.power
    ensures Size(d) == (d.mantissa * Pow10(d.power - low)) as real * Scale(low)
  {
    hide Scale, Pow10;
    ScaleShift(low, d.power - low);
    var m, p, s := d.mantissa as real, Pow10(d.power - low) as real, Scale(low);
    assert m * (p * s) == (m * p) * s;
  }

  lemma CancelScale(x: real, y: real, s: real)
    requires s > 0.0
    ensures x * s == y * s <==> x == y
  {
    if x * s == y * s {
      assert (x - y) * s == 0.0;
    }
  }

  // Two decimals are the same value if and only if they have the same sign and stand
  // for the same number.
  lemma SameValueIsSameNumber(a: Decimal, b: Decimal)
    ensures SameValue(a, b) <==> a.neg == b.neg && Size(a) == Size(b)
  {
    hide Scale, Pow10, Size;
    var low := if a.power <= b.power then a.power else b.power;
    SizeAt(a, low);
    SizeAt(b, low);
    ScaleStep(low);
    CancelScale((a.mantissa * Pow10(a.power - low)) as real, (b.mantissa * Pow10(b.power - low)) as real, Scale(low));
  }

  // Whatever rounding ends the parse: if the digits were chosen so that the number they
  // spell rounds to a double, the text printed from them reads back as that double; and
  // so do zeros, infinities and what is no number, but for the sign of zero.
  lemma PrintedRoundsBack<D>(x: Double, round: (bool, real) -> D, double: D)
    requires x.Valid() && (x.Finite? ==> round(x.neg, Size(ValueOf(x))) == double)
    ensures
      var parsed := ParseJsNumber(NumberText(x));
      && (x.Finite? ==> parsed.Exactly? && round(parsed.value.neg, Size(parsed.value)) == double)
      && (x.Zero? ==> parsed == Exactly(Decimal(false, 0, 0)))
      && (x.Infinite? ==> parsed == Unbounded(x.neg))
      && (x.NotANumber? ==> parsed == NotNumeric)
  {
    hide Size, SameValue, ParseJsNumber;
    PrintedParsesBack(x);
    if x.Finite? {
      SameValueIsSameNumber(ParseJsNumber(NumberText(x)).value, ValueOf(x));
    }
  }
}
