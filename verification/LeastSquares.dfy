/** Weighted least squares on a line, over the reals (linreg.c). */
module LeastSquares {
  import opened RealArith

  datatype Point = Point(x: real, y: real, w: real)

  /** The sums that regress() accumulates. */
  datatype Sums = Sums(x: real, y: real, xy: real, xx: real, w: real)

  datatype Line = Line(slope: real, intercept: real)

  function Single(p: Point): Sums {
    Sums(Times(p.x, p.w), Times(p.y, p.w), Times(Times(p.x, p.y), p.w), Times(Square(p.x), p.w), p.w)
  }

  function Plus(s: Sums, p: Point): Sums {
    var t := Single(p);
    Sums(s.x + t.x, s.y + t.y, s.xy + t.xy, s.xx + t.xx, s.w + t.w)
  }

  function SumsOf(ps: seq<Point>): Sums {
    if ps == [] then Sums(0.0, 0.0, 0.0, 0.0, 0.0) else Plus(SumsOf(ps[..|ps| - 1]), ps[|ps| - 1])
  }

  function Denominator(s: Sums): real
    requires s.w != 0.0
  {
    s.xx - s.x * s.x / s.w
  }

  /** The line that regress() computes from the sums. */
  function Fit(s: Sums): Line
    requires s.w != 0.0 && Denominator(s) != 0.0
  {
    var slope := (s.xy - s.x * s.y / s.w) / Denominator(s);
    Line(slope, (s.y - slope * s.x) / s.w)
  }

  function Residual(p: Point, l: Line): real {
    p.y - Times(l.slope, p.x) - l.intercept
  }

  /** The weighted squared error of a line. */
  function Error(ps: seq<Point>, l: Line): real {
    if ps == [] then 0.0
    else
      var p := ps[|ps| - 1];
        Error(ps[..|ps| - 1], l) + Weighted(p.w, Residual(p, l))
  }

  function Weighted(w: real, r: real): real {
    Times(w, Square(r))
  }

  /** Positive weights, and more than one x. */
  ghost predicate Regressable(ps: seq<Point>) {
    && (forall i | 0 <= i < |ps| :: ps[i].w > 0.0)
    && exists i, j | 0 <= i < j < |ps| :: ps[i].x != ps[j].x
  }

  // ---------------------------------------------------------------------
  // The error in terms of the sums
  // ---------------------------------------------------------------------

  function SquaredY(p: Point): real {
    Times(Square(p.y), p.w)
  }

  function SumYY(ps: seq<Point>): real {
    if ps == [] then 0.0 else SumYY(ps[..|ps| - 1]) + SquaredY(ps[|ps| - 1])
  }

  function Expansion(s: Sums, yy: real, a: real, b: real): real {
    yy - 2.0 * Times(a, s.xy) - 2.0 * Times(b, s.y)
    + Times(Square(a), s.xx) + 2.0 * Times(Times(a, b), s.x) + Times(Square(b), s.w)
  }

  lemma SquaredResidual(x: real, y: real, a: real, b: real)
    ensures Square(y - Times(a, x) - b)
         == Square(y) - 2.0 * Times(a, Times(x, y)) - 2.0 * Times(b, y)
            + Times(Square(a), Square(x)) + 2.0 * Times(Times(a, b), x) + Square(b)
  {
    var t := a * x;
    assert (y - t - b) * (y - t - b) == y * y - 2.0 * (t * y) - 2.0 * (b * y) + t * t + 2.0 * (t * b) + b * b;
    assert t * y == a * (x * y);
    assert t * t == (a * a) * (x * x);
    assert t * b == (a * b) * x;
  }

  lemma MoveWeight(w: real, a: real, c: real)
    ensures Times(w, Times(a, c)) == Times(a, Times(c, w)) && Times(w, a) == Times(a, w)
  {
    assert w * (a * c) == a * (c * w);
  }

  lemma WeightedResidual(p: Point, l: Line, a: real, b: real)
    requires a == l.slope && b == l.intercept
    ensures Weighted(p.w, Residual(p, l)) == Expansion(Single(p), SquaredY(p), a, b)
  {
    var x, y, w := p.x, p.y, p.w;
    SquaredResidual(x, y, a, b);
    Distribute(w, Square(y), Times(a, Times(x, y)), Times(b, y), Times(Square(a), Square(x)), Times(Times(a, b), x), Square(b));
    MoveWeight(w, a, Times(x, y));
    MoveWeight(w, b, y);
    MoveWeight(w, Square(a), Square(x));
    MoveWeight(w, Times(a, b), x);
    MoveWeight(w, Square(y), 0.0);
    MoveWeight(w, Square(b), 0.0);
    hide Times, Square;
  }

  lemma Distribute(w: real, a: real, b: real, c: real, d: real, e: real, f: real)
    ensures Times(w, a - 2.0 * b - 2.0 * c + d + 2.0 * e + f)
         == Times(w, a) - 2.0 * Times(w, b) - 2.0 * Times(w, c) + Times(w, d) + 2.0 * Times(w, e) + Times(w, f)
  {
  }

  lemma ExpansionAdds(s: Sums, yy: real, t: Sums, tt: real, a: real, b: real)
    ensures Expansion(Sums(s.x + t.x, s.y + t.y, s.xy + t.xy, s.xx + t.xx, s.w + t.w), yy + tt, a, b)
         == Expansion(s, yy, a, b) + Expansion(t, tt, a, b)
  {
    TimesAdds(a, s.xy, t.xy);
    TimesAdds(b, s.y, t.y);
    TimesAdds(Square(a), s.xx, t.xx);
    TimesAdds(Times(a, b), s.x, t.x);
    TimesAdds(Square(b), s.w, t.w);
    hide Times, Square;
  }

  lemma ExpansionPlus(s: Sums, yy: real, p: Point, l: Line)
    ensures Expansion(Plus(s, p), yy + SquaredY(p), l.slope, l.intercept)
         == Expansion(s, yy, l.slope, l.intercept) + Weighted(p.w, Residual(p, l))
  {
    WeightedResidual(p, l, l.slope, l.intercept);
    ExpansionAdds(s, yy, Single(p), SquaredY(p), l.slope, l.intercept);
    hide Expansion, Weighted, Residual, SquaredY, Single;
  }

  lemma {:induction false} ErrorExpanded(ps: seq<Point>, l: Line)
    ensures Error(ps, l) == Expansion(SumsOf(ps), SumYY(ps), l.slope, l.intercept)
  {
    if ps != [] {
      var rest, p := ps[..|ps| - 1], ps[|ps| - 1];
      ErrorExpanded(rest, l);
      ExpansionPlus(SumsOf(rest), SumYY(rest), p, l);
    }
  }

  // ---------------------------------------------------------------------
  // The fitted line minimises it
  // ---------------------------------------------------------------------

  /** Residuals that sum up to zero, weighted and unweighted by x. */
  ghost predicate Normal(s: Sums, l: Line) {
    && s.y == l.slope * s.x + l.intercept * s.w
    && s.xy == l.slope * s.xx + l.intercept * s.x
  }

  lemma FitIsNormal(s: Sums)
    requires s.w != 0.0 && Denominator(s) != 0.0
    ensures Normal(s, Fit(s))
  {
    var a, b := Fit(s).slope, Fit(s).intercept;
    var m := s.x / s.w;
    assert b * s.w == s.y - a * s.x;
    assert a * Denominator(s) == s.xy - s.x * s.y / s.w;
    assert s.x * s.x / s.w == m * s.x && s.x * s.y / s.w == m * s.y;
    assert a * (s.xx - m * s.x) == a * s.xx - a * (m * s.x);
    assert m * s.w == s.x;
    assert b * s.x == m * (b * s.w) by {
      assert b * (m * s.w) == m * (b * s.w);
    }
    assert m * (s.y - a * s.x) == m * s.y - a * (m * s.x);
  }

  function Gap(s: Sums, u: real, v: real): real {
    (u * u) * s.xx + 2.0 * ((u * v) * s.x) + (v * v) * s.w
  }

  /** How much worse than a normal line is one that differs by u and v. */
  lemma ErrorGap(s: Sums, yy: real, l: Line, u: real, v: real)
    requires Normal(s, l)
    ensures Expansion(s, yy, l.slope + u, l.intercept + v) == Expansion(s, yy, l.slope, l.intercept) + Gap(s, u, v)
  {
    var a, b := l.slope, l.intercept;
    assert (a + u) * (a + u) * s.xx == (a * a) * s.xx + 2.0 * (u * (a * s.xx)) + (u * u) * s.xx;
    assert (a + u) * (b + v) * s.x == (a * b) * s.x + v * (a * s.x) + u * (b * s.x) + (u * v) * s.x;
    assert (b + v) * (b + v) * s.w == (b * b) * s.w + 2.0 * (v * (b * s.w)) + (v * v) * s.w;
    assert (a + u) * s.xy == a * s.xy + u * s.xy && (b + v) * s.y == b * s.y + v * s.y;
    assert u * s.xy == u * (a * s.xx) + u * (b * s.x);
    assert v * s.y == v * (a * s.x) + v * (b * s.w);
  }

  /** The points moved onto the x axis. */
  function Flat(ps: seq<Point>): (fs: seq<Point>)
    ensures |fs| == |ps| && forall i | 0 <= i < |fs| :: fs[i] == ps[i].(y := 0.0)
  {
    seq(|ps|, i requires 0 <= i < |ps| => ps[i].(y := 0.0))
  }

  lemma {:induction false} FlatSums(ps: seq<Point>)
    ensures SumsOf(Flat(ps)) == SumsOf(ps).(y := 0.0, xy := 0.0) && SumYY(Flat(ps)) == 0.0
  {
    if ps != [] {
      var n := |ps| - 1;
      FlatSums(ps[..n]);
      assert Flat(ps)[..n] == Flat(ps[..n]);
      FlatPlus(SumsOf(ps[..n]), ps[n]);
    }
  }

  lemma FlatPlus(s: Sums, p: Point)
    ensures Plus(s.(y := 0.0, xy := 0.0), p.(y := 0.0)) == Plus(s, p).(y := 0.0, xy := 0.0)
  {
    ZeroTimes(p.w);
    ZeroTimes(p.x);
    hide Times, Square;
  }

  lemma FlatExpansion(s: Sums, u: real, v: real)
    ensures Expansion(s.(y := 0.0, xy := 0.0), 0.0, u, v) == Gap(s, u, v)
  {
  }

  lemma GapIsError(ps: seq<Point>, u: real, v: real)
    ensures Gap(SumsOf(ps), u, v) == Error(Flat(ps), Line(u, v))
  {
    ErrorExpanded(Flat(ps), Line(u, v));
    FlatSums(ps);
    FlatExpansion(SumsOf(ps), u, v);
  }

  lemma ProductPositive(a: real, b: real)
    requires a > 0.0 && b > 0.0
    ensures a * b > 0.0
  {
  }

  lemma SquareNotNegative(w: real, r: real)
    requires w > 0.0
    ensures Weighted(w, r) >= 0.0 && (r != 0.0 ==> Weighted(w, r) > 0.0)
  {
    if r > 0.0 {
      ProductPositive(w, r);
      ProductPositive(w * r, r);
    } else if r < 0.0 {
      ProductPositive(w, -r);
      assert w * (-r) == -(w * r);
      ProductPositive(-(w * r), -r);
    }
  }

  lemma {:induction false} ErrorNotNegative(ps: seq<Point>, l: Line)
    requires forall i | 0 <= i < |ps| :: ps[i].w > 0.0
    ensures Error(ps, l) >= 0.0
  {
    if ps != [] {
      ErrorNotNegative(ps[..|ps| - 1], l);
      SquareNotNegative(ps[|ps| - 1].w, Residual(ps[|ps| - 1], l));
    }
  }

  lemma {:induction false} ErrorPositive(ps: seq<Point>, l: Line, k: nat)
    requires (forall i | 0 <= i < |ps| :: ps[i].w > 0.0) && k < |ps| && Residual(ps[k], l) != 0.0
    ensures Error(ps, l) > 0.0
  {
    var rest, p := ps[..|ps| - 1], ps[|ps| - 1];
    SquareNotNegative(p.w, Residual(p, l));
    if k == |rest| {
      ErrorNotNegative(rest, l);
    } else {
      ErrorPositive(rest, l, k);
    }
  }

  lemma {:induction false} WeightsArePositive(ps: seq<Point>)
    requires ps != [] && forall i | 0 <= i < |ps| :: ps[i].w > 0.0
    ensures SumsOf(ps).w > 0.0
  {
    if |ps| > 1 {
      WeightsArePositive(ps[..|ps| - 1]);
    } else {
      assert ps[..0] == [];
    }
  }

  lemma DenominatorIsGap(s: Sums)
    requires s.w != 0.0
    ensures Denominator(s) == Gap(s, 1.0, -(s.x / s.w))
  {
    var m := s.x / s.w;
    assert m * s.w == s.x;
    assert (m * m) * s.w == m * s.x by {
      assert m * (m * s.w) == (m * m) * s.w;
    }
    assert s.x * s.x / s.w == m * s.x;
  }

  /** regress() divides by a positive number. */
  lemma DenominatorIsPositive(ps: seq<Point>)
    requires Regressable(ps)
    ensures SumsOf(ps).w > 0.0 && Denominator(SumsOf(ps)) > 0.0
  {
    WeightsArePositive(ps);
    var s := SumsOf(ps);
    var m := s.x / s.w;
    DenominatorIsGap(s);
    GapIsError(ps, 1.0, -m);
    var l, fs := Line(1.0, -m), Flat(ps);
    var i, j :| 0 <= i < j < |ps| && ps[i].x != ps[j].x;
    var k := if ps[i].x != m then i else j;
    assert Residual(fs[k], l) == m - ps[k].x != 0.0;
    ErrorPositive(fs, l, k);
  }

  /** Of all lines, the one regress() computes has the least error. */
  lemma FitIsBest(ps: seq<Point>, l: Line)
    requires Regressable(ps)
    ensures SumsOf(ps).w != 0.0 && Denominator(SumsOf(ps)) != 0.0
    ensures Error(ps, Fit(SumsOf(ps))) <= Error(ps, l)
  {
    DenominatorIsPositive(ps);
    var s, yy := SumsOf(ps), SumYY(ps);
    var f := Fit(s);
    var u, v := l.slope - f.slope, l.intercept - f.intercept;
    FitIsNormal(s);
    ErrorGap(s, yy, f, u, v);
    GapIsError(ps, u, v);
    ErrorNotNegative(Flat(ps), Line(u, v));
    ErrorExpanded(ps, f);
    ErrorExpanded(ps, l);
    assert f.slope + u == l.slope && f.intercept + v == l.intercept;
  }
}
