/** Decimal numbers as `std::to_string` prints them. */
module Decimals {
  predicate IsDigit(c: char) { '0' <= c <= '9' }

  function Decimal(n: nat): string {
    if n < 10 then [(n + 48) as char] else Decimal(n / 10) + [(n % 10 + 48) as char]
  }

  lemma {:induction false} DecimalNonEmpty(n: nat)
    ensures Decimal(n) != [] && IsDigit(Decimal(n)[|Decimal(n)| - 1])
  {
    if n >= 10 {
      DecimalNonEmpty(n / 10);
    }
  }

  lemma {:induction false} DecimalIsDigits(n: nat)
    ensures Decimal(n) != [] && forall i :: 0 <= i < |Decimal(n)| ==> IsDigit(Decimal(n)[i])
  {
    if n >= 10 {
      DecimalIsDigits(n / 10);
    }
  }

  lemma {:induction false} DecimalInjective(a: nat, b: nat)
    requires Decimal(a) == Decimal(b)
    ensures a == b
  {
    var x, y := Decimal(a), Decimal(b);
    assert x[|x| - 1] == y[|y| - 1];
    if a >= 10 && b >= 10 {
      assert x[..|x| - 1] == Decimal(a / 10) && y[..|y| - 1] == Decimal(b / 10);
      DecimalInjective(a / 10, b / 10);
    } else if a >= 10 {
      DecimalNonEmpty(a / 10);
    } else if b >= 10 {
      DecimalNonEmpty(b / 10);
    }
  }

  lemma DigitsDelimited(x: string, r: string, y: string, s: string)
    requires x + r == y + s && (r == [] || !IsDigit(r[0]))
    requires forall i :: 0 <= i < |y| ==> IsDigit(y[i])
    ensures |y| <= |x|
  {
    var z := x + r;
    assert r != [] ==> z[|x|] == r[0];
    assert forall i :: 0 <= i < |y| ==> z[i] == y[i];
  }

  /** A number is delimited by whatever follows it, unless that is a digit. */
  lemma DecimalDelimited(a: nat, b: nat, r: string, s: string)
    requires Decimal(a) + r == Decimal(b) + s
    requires (r == [] || !IsDigit(r[0])) && (s == [] || !IsDigit(s[0]))
    ensures a == b && r == s
  {
    var x, y := Decimal(a), Decimal(b);
    DecimalIsDigits(a);
    DecimalIsDigits(b);
    DigitsDelimited(x, r, y, s);
    DigitsDelimited(y, s, x, r);
    assert x == (x + r)[..|x|] == (y + s)[..|y|] == y;
    assert r == (x + r)[|x|..] == (y + s)[|y|..] == s;
    DecimalInjective(a, b);
  }
}
