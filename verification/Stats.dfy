/** Running statistics (stats.c), over the reals. */
module Stats {
  import opened RealArith

  function Total(xs: seq<real>): real {
    if xs == [] then 0.0 else Total(xs[..|xs| - 1]) + xs[|xs| - 1]
  }

  function SumOfSquares(xs: seq<real>): real {
    if xs == [] then 0.0 else SumOfSquares(xs[..|xs| - 1]) + Square(xs[|xs| - 1])
  }

  function Mean(xs: seq<real>): real
    requires xs != []
  {
    Total(xs) / |xs| as real
  }

  /** The sum of the squared deviations from m. */
  function Deviations(xs: seq<real>, m: real): real {
    if xs == [] then 0.0 else Deviations(xs[..|xs| - 1], m) + Square(xs[|xs| - 1] - m)
  }

  // ---------------------------------------------------------------------
  // Arithmetic
  // ---------------------------------------------------------------------

  /** The squared deviations from m of n values, in terms of their sums. */
  function Expansion(n: real, s: real, q: real, m: real): real {
    q - 2.0 * Times(m, s) + Times(n, Square(m))
  }

  lemma SquareOfDifference(x: real, m: real)
    ensures Square(x - m) == Square(x) - 2.0 * Times(m, x) + Square(m)
  {
    assert (x - m) * (x - m) == x * x - 2.0 * (m * x) + m * m;
  }

  lemma ExpansionStep(n: real, s: real, q: real, m: real, x: real)
    ensures Expansion(n, s, q, m) + Square(x - m) == Expansion(n + 1.0, s + x, q + Square(x), m)
  {
    SquareOfDifference(x, m);
    TimesAdds(m, s, x);
    TimesAdds(Square(m), n, 1.0);
    OneTimes(Square(m));
    hide Times, Square;
  }

  function NextMean(mean: real, num: real, value: real): real
    requires num > 0.0
  {
    mean + (value - mean) / num
  }

  function CrossDeviation(value: real, before: real, after: real): real {
    Times(value - before, value - after)
  }

  lemma MeanStep(n: real, m: real, x: real)
    requires n >= 0.0
    ensures Times(n + 1.0, NextMean(m, n + 1.0, x)) == Times(n, m) + x
  {
    var k, d := n + 1.0, (x - m) / (n + 1.0);
    DivideBack(x - m, k);
    TimesAdds(k, m, d);
    TimesAdds(m, n, 1.0);
    OneTimes(m);
    assert Times(k, NextMean(m, k, x)) == Times(k, m) + Times(k, d);
    hide Times;
  }

  /** One step of the sum of squared deviations; m and m1 are the means of n and
      of n + 1 values. */
  lemma WelfordStep(n: real, m: real, m1: real, x: real)
    requires Times(n + 1.0, m1) == Times(n, m) + x
    ensures CrossDeviation(x, m, m1) == Square(x) + Times(n, Square(m)) - Times(n + 1.0, Square(m1))
  {
    var k := n + 1.0;
    CrossExpanded(x, m, m1);
    TimesAdds(x, m, m1);
    Weighted(k, m1, n, m, x, m);
    Weighted(k, m1, n, m, x, m1);
    Regrouped(k, m1, m);
    Regrouped(n, m, m1);
    TimesAdds(Times(m, m1), n, 1.0);
    OneTimes(Times(m, m1));
    hide Times, CrossDeviation;
  }

  lemma CrossExpanded(x: real, m: real, m1: real)
    ensures CrossDeviation(x, m, m1) == Square(x) - Times(x, m) - Times(x, m1) + Times(m, m1)
  {
    assert (x - m) * (x - m1) == x * x - x * m - x * m1 + m * m1;
  }

  /** x is k m1 - n m; both sides times c. */
  lemma Weighted(k: real, m1: real, n: real, m: real, x: real, c: real)
    requires Times(k, m1) == Times(n, m) + x
    ensures Times(x, c) == Times(k, Times(m1, c)) - Times(n, Times(m, c))
  {
    assert x * c == (k * m1 - n * m) * c;
    assert (k * m1 - n * m) * c == (k * m1) * c - (n * m) * c;
    assert (k * m1) * c == k * (m1 * c) && (n * m) * c == n * (m * c);
  }

  lemma Regrouped(k: real, a: real, b: real)
    ensures Times(k, Times(a, b)) == Times(k, Times(b, a)) && Times(a, b) == Times(b, a)
  {
  }

  /** The state after some values were added. */
  datatype Totals = Totals(mean: real, sumSqr: real, sumDiffSqr: real)

  function Added(t: Totals, num: real, value: real): Totals
    requires num > 0.0
  {
    var mean := NextMean(t.mean, num, value);
    Totals(mean, t.sumSqr + Square(value), t.sumDiffSqr + CrossDeviation(value, t.mean, mean))
  }

  /** The totals of n values that sum up to s and their squares to q. */
  ghost predicate Sums(n: real, s: real, q: real, t: Totals) {
    s == Times(n, t.mean) && t.sumSqr == q && t.sumDiffSqr == q - Times(n, Square(t.mean))
  }

  lemma NextSums(n: real, s: real, q: real, t: Totals, x: real)
    requires n >= 0.0 && Sums(n, s, q, t)
    ensures Sums(n + 1.0, s + x, q + Square(x), Added(t, n + 1.0, x))
  {
    MeanStep(n, t.mean, x);
    WelfordStep(n, t.mean, NextMean(t.mean, n + 1.0, x), x);
    hide Times, Square, CrossDeviation, NextMean;
  }

  lemma VarianceStep(n: real, s: real, q: real, t: Totals)
    requires n > 0.0 && Sums(n, s, q, t)
    ensures t.mean == s / n && t.sumDiffSqr / n == t.sumSqr / n - Square(t.mean)
  {
    TimesBack(n, t.mean);
    TimesBack(n, Square(t.mean));
    QuotientAdds(n, t.sumDiffSqr, Times(n, Square(t.mean)));
    hide Times, Square;
  }

  // ---------------------------------------------------------------------
  // What the sums mean
  // ---------------------------------------------------------------------

  lemma NoExpansion(m: real)
    ensures Expansion(0.0, 0.0, 0.0, m) == 0.0
  {
  }

  lemma {:induction false} DeviationsExpanded(xs: seq<real>, m: real)
    ensures Deviations(xs, m) == Expansion(|xs| as real, Total(xs), SumOfSquares(xs), m)
  {
    hide Expansion, Square;
    if xs == [] {
      NoExpansion(m);
    } else {
      var rest, x := xs[..|xs| - 1], xs[|xs| - 1];
      DeviationsExpanded(rest, m);
      ExpansionStep(|rest| as real, Total(rest), SumOfSquares(rest), m, x);
      assert |xs| as real == |rest| as real + 1.0;
    }
  }

  lemma SumsExpanded(n: real, s: real, q: real, t: Totals)
    requires Sums(n, s, q, t)
    ensures t.sumDiffSqr == Expansion(n, s, q, t.mean)
  {
    Swapped(n, t.mean);
    hide Times;
  }

  lemma Swapped(n: real, m: real)
    ensures Times(m, Times(n, m)) == Times(n, Times(m, m))
  {
    assert m * (n * m) == n * (m * m);
  }

  function TotalsOf(xs: seq<real>): Totals {
    if xs == [] then Totals(0.0, 0.0, 0.0)
    else Added(TotalsOf(xs[..|xs| - 1]), |xs| as real, xs[|xs| - 1])
  }

  lemma NoSums(t: Totals)
    requires t == Totals(0.0, 0.0, 0.0)
    ensures Sums(0.0, 0.0, 0.0, t)
  {
  }

  lemma {:induction false} TotalsAreSums(xs: seq<real>)
    ensures Sums(|xs| as real, Total(xs), SumOfSquares(xs), TotalsOf(xs))
  {
    hide Sums, Square, Added;
    if xs == [] {
      NoSums(TotalsOf(xs));
    } else {
      var rest, x := xs[..|xs| - 1], xs[|xs| - 1];
      TotalsAreSums(rest);
      NextSums(|rest| as real, Total(rest), SumOfSquares(rest), TotalsOf(rest), x);
      assert |xs| as real == |rest| as real + 1.0;
    }
  }

  /** The incremental state holds the mean, and the sum of squared deviations
      from it: what a second pass over the values would compute. */
  lemma TotalsAreRight(xs: seq<real>)
    ensures var t := TotalsOf(xs);
            && t.sumSqr == SumOfSquares(xs)
            && t.sumDiffSqr == Deviations(xs, t.mean)
            && (xs != [] ==>
                  && t.mean == Mean(xs)
                  && t.sumDiffSqr / |xs| as real == t.sumSqr / |xs| as real - Square(t.mean))
  {
    TotalsAreSums(xs);
    var t, n := TotalsOf(xs), |xs| as real;
    DeviationsExpanded(xs, t.mean);
    SumsExpanded(n, Total(xs), SumOfSquares(xs), t);
    if xs != [] {
      VarianceStep(n, Total(xs), SumOfSquares(xs), t);
    }
    hide Times, Square, Expansion, Added, Deviations;
  }

  /** So the deviations are never negative, as a square root needs it. */
  lemma {:induction false} DeviationsNotNegative(xs: seq<real>, m: real)
    ensures Deviations(xs, m) >= 0.0
  {
    if xs != [] {
      var x := xs[|xs| - 1] - m;
      DeviationsNotNegative(xs[..|xs| - 1], m);
      assert x * x >= 0.0;
    }
  }

  class Statistics {
    var num: nat
    var min: real
    var max: real
    var mean: real
    var sumSqr: real
    var sumDiffSqr: real
    /** Every value added. */
    ghost var values: seq<real>

    constructor ()
      ensures Valid() && values == []
    {
      num, min, max, mean, sumSqr, sumDiffSqr, values := 0, 0.0, 0.0, 0.0, 0.0, 0.0, [];
    }

    ghost predicate Valid()
      reads this
    {
      && num == |values|
      && Totals(mean, sumSqr, sumDiffSqr) == TotalsOf(values)
      && (values != [] ==>
            && min in values && max in values
            && forall i | 0 <= i < |values| :: min <= values[i] <= max)
    }

    /** stats_add_value() */
    method AddValue(value: real)
      requires Valid()
      modifies this
      ensures Valid() && values == old(values) + [value]
    {
      ghost var xs := values;
      TrackRange(value);
      num := num + 1;
      TrackSums(value);
      values := xs + [value];
      assert values[..|xs|] == xs && values[|xs|] == value;
      assert forall i | 0 <= i < |values| :: min <= values[i] <= max;
    }

    method TrackRange(value: real)
      requires num == |values|
      modifies this`min, this`max
      ensures min == (if values == [] || value < old(min) then value else old(min))
      ensures max == (if values == [] || value > old(max) then value else old(max))
    {
      if num == 0 || max < value {
        max := value;
      }
      if num == 0 || min > value {
        min := value;
      }
    }

    method TrackSums(value: real)
      requires num > 0
      modifies this`mean, this`sumSqr, this`sumDiffSqr
      ensures Totals(mean, sumSqr, sumDiffSqr) == Added(old(Totals(mean, sumSqr, sumDiffSqr)), num as real, value)
    {
      var oldMean := mean;
      mean := NextMean(oldMean, num as real, value);
      sumSqr := sumSqr + Square(value);
      sumDiffSqr := sumDiffSqr + CrossDeviation(value, oldMean, mean);
      hide Square, CrossDeviation, NextMean;
    }

    /** stats_get_result(), with the mean of the squares and the variance in place
        of their square roots. */
    method GetResult() returns (ok: bool, min: real, max: real, maxAbs: real, mean: real, meanSqr: real, variance: real)
      requires Valid()
      ensures ok <==> values != []
      ensures ok ==>
                && mean == Mean(values)
                && variance == Deviations(values, mean) / |values| as real
                && meanSqr == SumOfSquares(values) / |values| as real
                && (forall i | 0 <= i < |values| :: min <= values[i] <= max && -maxAbs <= values[i] <= maxAbs)
                && min in values && max in values && (maxAbs == max || maxAbs == -min)
    {
      min, max, maxAbs, mean, meanSqr, variance := this.min, this.max, 0.0, this.mean, 0.0, 0.0;
      ok := num != 0;
      if ok {
        maxAbs := if max > -min then max else -min;
        meanSqr := sumSqr / num as real;
        variance := sumDiffSqr / num as real;
        TotalsAreRight(values);
      }
    }
  }
}
