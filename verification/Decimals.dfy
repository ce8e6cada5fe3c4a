// Numbers as strings of decimal digits.
module Decimals {
  function Digit(n: nat): char
    requires n < 10
  {
    '0' + n as char
  }

  predicate IsDigit(c: char) {
    '0' <= c <= '9'
  }

  predicate AllDigits(s: string) {
    forall i :: 0 <= i < |s| ==> IsDigit(s[i])
  }

  // `n` in decimal, with zeros in front up to `width` digits.
  function Padded(n: nat, width: nat): string
    decreases n, width
  {
    if n < 10 && width <= 1 then [Digit(n)]
    else Padded(n / 10, if width > 0 then width - 1 else 0) + [Digit(n % 10)]
  }

  function Value(s: string): nat
    requires AllDigits(s)
  {
    if s == "" then 0 else Value(s[..|s| - 1]) * 10 + (s[|s| - 1] - '0') as int
  }

  function Pow10(k: nat): nat {
    if k == 0 then 1 else 10 * Pow10(k - 1)
  }

  // Printed digits read back, padded or not.
  lemma {:induction false} PaddedIsItsNumber(n: nat, width: nat)
    ensures Padded(n, width) != "" && AllDigits(Padded(n, width)) && Value(Padded(n, width)) == n
    decreases n, width
  {
    var s := Padded(n, width);
    if n < 10 && width <= 1 {
      assert s[..0] == "";
    } else {
      var init := Padded(n / 10, if width > 0 then width - 1 else 0);
      PaddedIsItsNumber(n / 10, if width > 0 then width - 1 else 0);
      ValueSnoc(init, Digit(n % 10));
    }
  }

  // A number that fits takes exactly the width.
  lemma {:induction false} PaddedReadsBack(n: nat, width: nat)
    requires 1 <= width && n < Pow10(width)
    ensures |Padded(n, width)| == width && AllDigits(Padded(n, width)) && Value(Padded(n, width)) == n
  {
    PaddedIsItsNumber(n, width);
    if width == 1 {
      assert Pow10(1) == 10 * Pow10(0);
    } else {
      PaddedReadsBack(n / 10, width - 1);
    }
  }

  lemma {:induction false} ValuePrintsBack(s: string)
    requires s != "" && AllDigits(s)
    ensures Value(s) < Pow10(|s|) && Padded(Value(s), |s|) == s
  {
    var init, last := s[..|s| - 1], s[|s| - 1];
    assert s == init + [last];
    if |s| == 1 {
      assert Pow10(1) == 10 * Pow10(0);
      assert init == "";
    } else {
      ValuePrintsBack(init);
      var d := (last - '0') as int;
      assert Value(s) / 10 == Value(init) && Value(s) % 10 == d && Digit(d) == last;
    }
  }

  lemma ValueSnoc(s: string, c: char)
    requires AllDigits(s) && IsDigit(c)
    ensures AllDigits(s + [c]) && Value(s + [c]) == Value(s) * 10 + (c - '0') as int
  {
    assert (s + [c])[..|s|] == s;
  }
}
