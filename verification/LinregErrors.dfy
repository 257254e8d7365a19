/** What the smoothed error of a window is the average of. */
module LinregErrors {
  import opened LeastSquares
  import opened Linreg
  import opened RealArith
  import opened Servo

  // ---------------------------------------------------------------------
  // Averages
  // ---------------------------------------------------------------------

  function Sum(es: seq<real>): real {
    if es == [] then 0.0 else Sum(es[..|es| - 1]) + es[|es| - 1]
  }

  function Mean(sum: real, n: nat): real
    requires n > 0
  {
    sum / n as real
  }

  function Power(b: real, n: nat): real {
    if n == 0 then 1.0 else Times(b, Power(b, n - 1))
  }

  /** The first ten errors count alike. */
  const ALIKE := 10

  const KEPT := 0.98

  /** What error k of n adds to the average, if it is not among the first ones. */
  function Share(es: seq<real>, k: nat, n: nat): real
    requires k < n && k < |es|
  {
    Times(Power(KEPT, n - 1 - k), 0.02 * es[k])
  }

  /** The errors from the tenth on, up to error m of n, weighted by how long ago they are. */
  function Recent(es: seq<real>, m: nat, n: nat): real
    requires m <= n && m <= |es|
  {
    if m <= ALIKE then 0.0 else Recent(es, m - 1, n) + Share(es, m - 1, n)
  }

  /** A reference definition: the mean of up to ten errors, and beyond that their mean,
      faded by a factor of 0.98 per error, and the later ones, faded likewise. */
  function Average(es: seq<real>): real
    requires es != []
  {
    if |es| <= ALIKE then Mean(Sum(es), |es|)
    else Times(Power(KEPT, |es| - ALIKE), Mean(Sum(es[..ALIKE]), ALIKE)) + Recent(es, |es|, |es|)
  }

  lemma {:induction false} FadesByOne(es: seq<real>, e: real, m: nat, n: nat)
    requires m <= n == |es|
    ensures Recent(es + [e], m, n + 1) == Times(KEPT, Recent(es, m, n))
  {
    hide Times, Power;
    if m <= ALIKE {
      ZeroTimes(KEPT);
    } else {
      FadesByOne(es, e, m - 1, n);
      ShareFades(es, e, m - 1, n);
      TimesAdds(KEPT, Recent(es, m - 1, n), Share(es, m - 1, n));
    }
  }

  lemma ShareFades(es: seq<real>, e: real, k: nat, n: nat)
    requires k < n == |es|
    ensures Share(es + [e], k, n + 1) == Times(KEPT, Share(es, k, n))
  {
    hide Times;
    Associates(KEPT, Power(KEPT, n - 1 - k), 0.02 * es[k]);
    assert (es + [e])[k] == es[k];
  }

  lemma Associates(a: real, b: real, c: real)
    ensures Times(Times(a, b), c) == Times(a, Times(b, c))
  {
  }

  /** One more error. */
  lemma NextAverage(es: seq<real>, e: real)
    ensures Average(es + [e]) ==
            if |es| < ALIKE then Mean(Sum(es) + e, |es| + 1)
            else Times(KEPT, Average(es)) + 0.02 * e
  {
    if |es| < ALIKE {
      EarlyAverage(es, e);
    } else {
      assert (es + [e])[..ALIKE] == es[..ALIKE];
      LateAverage(es, e);
    }
    hide *;
  }

  lemma EarlyAverage(es: seq<real>, e: real)
    requires |es| < ALIKE
    ensures Average(es + [e]) == Mean(Sum(es) + e, |es| + 1)
  {
    SumAppended(es, e);
    hide Sum, Mean, Times, Power, Recent;
  }

  lemma SumAppended(es: seq<real>, e: real)
    ensures Sum(es + [e]) == Sum(es) + e
  {
    assert (es + [e])[..|es|] == es;
  }

  lemma LateAverage(es: seq<real>, e: real)
    requires |es| >= ALIKE && (es + [e])[..ALIKE] == es[..ALIKE]
    ensures Average(es + [e]) == Times(KEPT, Average(es)) + 0.02 * e
  {
    var n := |es|;
    var mean := Mean(Sum(es[..ALIKE]), ALIKE);
    FadesByOne(es, e, n, n);
    OneTimes(0.02 * e);
    Associates(KEPT, Power(KEPT, n - ALIKE), mean);
    OneTimes(mean);
    hide Times, Sum, Mean;
    assert Share(es + [e], n, n + 1) == 0.02 * e;
    assert Power(KEPT, n + 1 - ALIKE) == Times(KEPT, Power(KEPT, n - ALIKE));
    if n == ALIKE {
      assert es[..ALIKE] == es;
      ZeroTimes(KEPT);
    } else {
      TimesAdds(KEPT, Times(Power(KEPT, n - ALIKE), mean), Recent(es, n, n));
    }
  }

  // ---------------------------------------------------------------------
  // The errors of one window
  // ---------------------------------------------------------------------

  function Least(a: nat, b: nat): nat {
    if a < b then a else b
  }

  /** err is the average of these errors, and errUpdates says how many count alike. */
  ghost predicate Averages(res: Result, es: seq<real>) {
    res.errUpdates == Least(|es|, 10) && (es != [] ==> res.err == Average(es))
  }

  lemma OneMoreError(res: Result, y0: real, es: seq<real>)
    requires Averages(res, es) && res.slope != 0.0
    ensures Averages(ErrUpdated(res, y0), es + [Abs(res.intercept - y0)])
  {
    var e := Abs(res.intercept - y0);
    NextAverage(es, e);
    if es == [] {
      assert res.err * 0.0 == 0.0;
    } else if |es| < ALIKE {
      MeanTimes(Sum(es), |es|);
    } else {
      Smooths(res.err, e);
    }
    hide Average, Times, Sum;
  }

  lemma Smooths(err: real, e: real)
    ensures err + 0.02 * (e - err) == Times(KEPT, err) + 0.02 * e
  {
  }

  lemma MeanTimes(sum: real, n: nat)
    requires n > 0
    ensures Mean(sum, n) * n as real == sum
  {
    QuotientTimes(sum, n as real);
  }

  // ---------------------------------------------------------------------
  // Over a run of regressions
  // ---------------------------------------------------------------------

  /** A regression of one window: the reference it is done at, the newest point, and
      what the window's line then is. */
  datatype Refit = Refit(reference: Reference, newest: Stored, points: seq<Point>)

  /** results are what the window holds before and after each regression, between which
      the reference moves from start on. */
  ghost predicate Regressions(start: Reference, results: seq<Result>, refits: seq<Refit>) {
    && |results| == |refits| + 1
    && forall k: nat | k < |refits| :: RegressionAt(start, results, refits, k)
  }

  function ReferenceBefore(start: Reference, refits: seq<Refit>, k: nat): Reference
    requires k <= |refits|
  {
    if k == 0 then start else refits[k - 1].reference
  }

  ghost predicate RegressionAt(start: Reference, results: seq<Result>, refits: seq<Refit>, k: nat) {
    && k < |refits| && |results| == |refits| + 1
    && var was, r, f := ReferenceBefore(start, refits, k), results[k], refits[k];
       && f.points != [] && f.points[0] == Relative(f.newest, f.reference)
       && Regressed(results[k + 1], MovedResult(r, f.reference.x - was.x, f.reference.y - was.y), f.points)
  }

  /** How far the newest point of each regression was from what the line before had
      predicted at the new reference; a window without a line predicts nothing. */
  function Errors(start: Reference, results: seq<Result>, refits: seq<Refit>): (es: seq<real>)
    requires |results| == |refits| + 1
  {
    if refits == [] then []
    else
      var k := |refits| - 1;
      var es := Errors(start, results[..|refits|], refits[..k]);
      if results[k].slope == 0.0 then es
      else
        var at := refits[k].reference.x as real;
        es + [Abs(Predicts(LineOf(results[k]), ReferenceBefore(start, refits, k), at) - refits[k].newest.y as real)]
  }

  lemma ErrorOfOne(res: Result, was: Reference, f: Refit)
    requires f.points != [] && f.points[0] == Relative(f.newest, f.reference)
    ensures var moved := MovedResult(res, f.reference.x - was.x, f.reference.y - was.y);
            Abs(moved.intercept - f.points[0].y)
            == Abs(Predicts(LineOf(res), was, f.reference.x as real) - f.newest.y as real)
  {
    var dx := (f.reference.x - was.x) as real;
    assert dx == f.reference.x as real - was.x as real;
    assert (f.reference.y - was.y) as real == f.reference.y as real - was.y as real;
    assert (f.newest.y - f.reference.y) as real == f.newest.y as real - f.reference.y as real;
    Commutes(dx, res.slope);
  }

  lemma Commutes(a: real, b: real)
    ensures a * b == b * a
  {
  }

  /** Moving the reference several times between two regressions is moving it once. */
  lemma MovesAdd(res: Result, x: int, y: int, x2: int, y2: int)
    ensures MovedResult(MovedResult(res, x, y), x2, y2) == MovedResult(res, x + x2, y + y2)
  {
    assert (x + x2) as real * res.slope == x as real * res.slope + x2 as real * res.slope;
  }

  /** Over any run of regressions of a window, its error is the average of how wrong its
      lines were, as long as it has made ten or fewer predictions their mean. */
  lemma {:induction false} ErrIsAverage(start: Reference, results: seq<Result>, refits: seq<Refit>)
    requires Regressions(start, results, refits) && results[0].errUpdates == 0
    ensures Averages(results[|refits|], Errors(start, results, refits))
  {
    if refits != [] {
      var k := |refits| - 1;
      RegressionsBefore(start, results, refits);
      ErrIsAverage(start, results[..|refits|], refits[..k]);
      NextIsAverage(start, results, refits);
    }
  }

  lemma RegressionsBefore(start: Reference, results: seq<Result>, refits: seq<Refit>)
    requires Regressions(start, results, refits) && refits != []
    ensures Regressions(start, results[..|refits|], refits[..|refits| - 1])
  {
    hide Regressed;
    var rs, fs := results[..|refits|], refits[..|refits| - 1];
    forall k: nat | k < |fs| ensures RegressionAt(start, rs, fs, k) {
      assert RegressionAt(start, results, refits, k) && ReferenceBefore(start, fs, k) == ReferenceBefore(start, refits, k);
    }
  }

  lemma NextIsAverage(start: Reference, results: seq<Result>, refits: seq<Refit>)
    requires |results| == |refits| + 1 && Regressions(start, results, refits) && refits != []
    requires Averages(results[|refits| - 1], Errors(start, results[..|refits|], refits[..|refits| - 1]))
    ensures Averages(results[|refits|], Errors(start, results, refits))
  {
    hide *;
    var k := |refits| - 1;
    var was, r, f := ReferenceBefore(start, refits, k), results[k], refits[k];
    var dx, dy := f.reference.x - was.x, f.reference.y - was.y;
    var es := Errors(start, results[..|refits|], refits[..k]);
    LastRegression(start, results, refits);
    LastError(start, results, refits);
    KeepsErr(r, dx, dy, es);
    var moved := MovedResult(r, dx, dy);
    if r.slope != 0.0 {
      ErrorOfOne(r, was, f);
      OneMoreError(moved, f.points[0].y, es);
    } else {
      NoError(moved, f.points[0].y);
    }
    SameAverage(ErrUpdated(moved, f.points[0].y), results[k + 1], Errors(start, results, refits));
  }

  lemma LastError(start: Reference, results: seq<Result>, refits: seq<Refit>)
    requires |results| == |refits| + 1 && refits != []
    ensures var k := |refits| - 1;
            var es := Errors(start, results[..|refits|], refits[..k]);
            Errors(start, results, refits) ==
              if results[k].slope == 0.0 then es
              else es + [Abs(Predicts(LineOf(results[k]), ReferenceBefore(start, refits, k), refits[k].reference.x as real)
                             - refits[k].newest.y as real)]
  {
    hide Predicts, Abs, LineOf;
  }

  lemma LastRegression(start: Reference, results: seq<Result>, refits: seq<Refit>)
    requires Regressions(start, results, refits) && refits != []
    ensures var k := |refits| - 1;
            var was, r, f := ReferenceBefore(start, refits, k), results[k], refits[k];
            && f.points != [] && f.points[0] == Relative(f.newest, f.reference)
            && var u := ErrUpdated(MovedResult(r, f.reference.x - was.x, f.reference.y - was.y), f.points[0].y);
               results[k + 1].err == u.err && results[k + 1].errUpdates == u.errUpdates
  {
    hide ErrUpdated, MovedResult, SumsOf, Denominator, Fit, Regressable;
    assert RegressionAt(start, results, refits, |refits| - 1);
  }

  lemma KeepsErr(res: Result, x: int, y: int, es: seq<real>)
    ensures MovedResult(res, x, y).slope == res.slope && (Averages(MovedResult(res, x, y), es) <==> Averages(res, es))
  {
    hide Average;
  }

  lemma NoError(res: Result, y0: real)
    requires res.slope == 0.0
    ensures ErrUpdated(res, y0) == res
  {
  }

  lemma SameAverage(a: Result, b: Result, es: seq<real>)
    requires a.err == b.err && a.errUpdates == b.errUpdates && Averages(a, es)
    ensures Averages(b, es)
  {
    hide Average;
  }
}
