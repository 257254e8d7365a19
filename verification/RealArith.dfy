/** Products of reals by name, so that proofs can keep them apart. */
module RealArith {

  function Times(a: real, b: real): real {
    a * b
  }

  function Square(x: real): real {
    Times(x, x)
  }

  lemma TimesAdds(a: real, b: real, c: real)
    ensures Times(a, b + c) == Times(a, b) + Times(a, c) && Times(b + c, a) == Times(b, a) + Times(c, a)
  {
  }

  lemma OneTimes(a: real)
    ensures Times(1.0, a) == a
  {
  }

  lemma ZeroTimes(a: real)
    ensures Times(0.0, a) == 0.0 && Times(a, 0.0) == 0.0
  {
  }

  lemma DivideBack(a: real, b: real)
    requires b > 0.0
    ensures Times(b, a / b) == a
  {
    var q := a / b;
    assert q * b == a;
  }

  lemma TimesBack(a: real, b: real)
    requires a > 0.0
    ensures Times(a, b) / a == b
  {
  }

  lemma QuotientAdds(n: real, a: real, b: real)
    requires n > 0.0
    ensures (a + b) / n == a / n + b / n
  {
  }

  lemma QuotientTimes(a: real, b: real)
    requires b > 0.0
    ensures a / b * b == a
  {
  }

  lemma TimesOneLess(q: real, b: real)
    ensures (q - 1.0) * b == q * b - b && (1.0 - q) * b == b - q * b && (-q) * b == -(q * b)
  {
  }

  lemma TimesSign(q: real, b: real)
    requires b > 0.0
    ensures q > 0.0 ==> q * b > 0.0
    ensures q >= 0.0 ==> q * b >= 0.0
  {
  }

  /** Quotients of positive numbers are positive, and small if the divisor is larger. */
  lemma Quotient(a: real, b: real)
    requires a >= 0.0 && b > 0.0
    ensures a / b >= 0.0 && (a > 0.0 ==> a / b > 0.0) && (a / b < 1.0 <==> a < b)
  {
    var q := a / b;
    QuotientTimes(a, b);
    TimesOneLess(q, b);
    TimesSign(-q, b);
    TimesSign(q - 1.0, b);
    TimesSign(1.0 - q, b);
  }
}
