/** The linear regression servo (linreg.c), over the reals. */
module Linreg {
  import opened CArith
  import opened LeastSquares
  import opened RealArith
  import opened Servo

  const MAX_SIZE := 6
  const MIN_SIZE := 2
  const MAX_POINTS := 64
  const SIZES := 5

  /** A stored point, in absolute coordinates. */
  datatype Stored = Stored(x: int, y: int, w: real)

  datatype Reference = Reference(x: int, y: int)

  datatype Result = Result(slope: real, intercept: real, err: real, errUpdates: nat)

  function Relative(p: Stored, r: Reference): Point {
    Point((p.x - r.x) as real, (p.y - r.y) as real, p.w)
  }

  /** The n newest points of a history, newest first. */
  function Newest(history: seq<Stored>, r: Reference, n: nat): (ps: seq<Point>)
    requires n <= |history|
    ensures |ps| == n && forall i | 0 <= i < n :: ps[i] == Relative(history[|history| - 1 - i], r)
  {
    seq(n, i requires 0 <= i < n => Relative(history[|history| - 1 - i], r))
  }

  lemma NewestPrefix(history: seq<Stored>, r: Reference, n: nat, m: nat)
    requires m <= n <= |history|
    ensures Newest(history, r, n)[..m] == Newest(history, r, m)
  {
  }

  lemma MoreRegressable(ps: seq<Point>, n: nat)
    requires n <= |ps| && Regressable(ps[..n]) && forall i | 0 <= i < |ps| :: ps[i].w > 0.0
    ensures Regressable(ps)
  {
    var i, j :| 0 <= i < j < n && ps[..n][i].x != ps[..n][j].x;
    assert ps[i].x != ps[j].x;
  }

  // ---------------------------------------------------------------------
  // The reference
  // ---------------------------------------------------------------------

  /** What a line predicts, in absolute coordinates. */
  function Predicts(l: Line, r: Reference, x: real): real {
    r.y as real + l.slope * (x - r.x as real) + l.intercept
  }

  function MovedResult(res: Result, x: int, y: int): Result {
    res.(intercept := res.intercept + x as real * res.slope - y as real)
  }

  function LineOf(res: Result): Line {
    Line(res.slope, res.intercept)
  }

  /** Moving the reference leaves every line where it is. */
  lemma MoveKeepsLine(res: Result, r: Reference, x: int, y: int, at: real)
    ensures Predicts(LineOf(MovedResult(res, x, y)), Reference(r.x + x, r.y + y), at) == Predicts(LineOf(res), r, at)
  {
    var a, dx := at - r.x as real, x as real;
    assert (r.x + x) as real == r.x as real + dx;
    assert (r.y + y) as real == r.y as real + y as real;
    assert res.slope * (a - dx) == res.slope * a - dx * res.slope;
  }

  // ---------------------------------------------------------------------
  // Regression
  // ---------------------------------------------------------------------

  /** The moving average of the prediction error, for a newest point at y0. */
  function ErrUpdated(res: Result, y0: real): Result {
    if res.slope == 0.0 then res
    else
      var e := Abs(res.intercept - y0);
      if res.errUpdates < 10 then
        res.(err := (res.err * res.errUpdates as real + e) / (res.errUpdates + 1) as real, errUpdates := res.errUpdates + 1)
      else res.(err := res.err + 0.02 * (e - res.err))
  }

  function WithLine(res: Result, l: Line): Result {
    res.(slope := l.slope, intercept := l.intercept)
  }

  /** The result for one window of points. */
  ghost predicate Regressed(res: Result, was: Result, ps: seq<Point>) {
    && ps != [] && Regressable(ps)
    && SumsOf(ps).w != 0.0 && Denominator(SumsOf(ps)) != 0.0
    && res == WithLine(ErrUpdated(was, ps[0].y), Fit(SumsOf(ps)))
  }

  /** Each window keeps the line with the least weighted squared error over
      exactly its points. */
  lemma RegressedIsBest(res: Result, was: Result, ps: seq<Point>, l: Line)
    requires Regressed(res, was, ps)
    ensures Error(ps, LineOf(res)) <= Error(ps, l)
  {
    FitIsBest(ps, l);
  }

  /** The smoothed error is an average, so it stays non-negative. */
  lemma ErrNotNegative(res: Result, y0: real)
    requires res.err >= 0.0
    ensures ErrUpdated(res, y0).err >= 0.0
  {
    if res.slope != 0.0 && res.errUpdates < 10 {
      var n, e := res.errUpdates as real, Abs(res.intercept - y0);
      assert res.err * n >= 0.0;
      Quotient(res.err * n + e, n + 1.0);
    }
  }

  // ---------------------------------------------------------------------
  // The selected size
  // ---------------------------------------------------------------------

  /** Whether a window is taken instead of the best one so far, none if size is 0. */
  predicate Better(res: Result, size: nat, bestErr: real) {
    || (size == 0 && res.slope != 0.0)
    || (bestErr * 1.05 > res.err && res.errUpdates >= 10)
  }

  // ---------------------------------------------------------------------
  // Lines that are best wherever the reference is
  // ---------------------------------------------------------------------

  /** No line has less error over the n newest points. */
  ghost predicate BestLine(history: seq<Stored>, r: Reference, n: nat, line: Line) {
    n <= |history| && forall l: Line :: Error(Newest(history, r, n), line) <= Error(Newest(history, r, n), l)
  }

  function MovedLine(l: Line, x: int, y: int): Line {
    Line(l.slope, l.intercept + x as real * l.slope - y as real)
  }

  lemma MovedLineOf(res: Result, x: int, y: int)
    ensures LineOf(MovedResult(res, x, y)) == MovedLine(LineOf(res), x, y)
  {
  }

  lemma MoveKeepsResidual(p: Stored, r: Reference, l: Line, x: int, y: int)
    ensures Residual(Relative(p, Reference(r.x + x, r.y + y)), MovedLine(l, x, y)) == Residual(Relative(p, r), l)
  {
    var a, dx := (p.x - r.x) as real, x as real;
    assert (p.x - (r.x + x)) as real == a - dx;
    assert (p.y - (r.y + y)) as real == (p.y - r.y) as real - y as real;
    assert l.slope * (a - dx) == l.slope * a - dx * l.slope;
  }

  lemma {:induction false} MoveKeepsError(history: seq<Stored>, r: Reference, n: nat, l: Line, x: int, y: int)
    requires n <= |history|
    ensures Error(Newest(history, Reference(r.x + x, r.y + y), n), MovedLine(l, x, y)) == Error(Newest(history, r, n), l)
  {
    if n > 0 {
      var r' := Reference(r.x + x, r.y + y);
      NewestPrefix(history, r, n, n - 1);
      NewestPrefix(history, r', n, n - 1);
      MoveKeepsError(history, r, n - 1, l, x, y);
      MoveKeepsResidual(history[|history| - n], r, l, x, y);
    }
  }

  /** Moving the reference keeps the best line best. */
  lemma MoveKeepsBest(history: seq<Stored>, r: Reference, n: nat, line: Line, x: int, y: int)
    requires BestLine(history, r, n, line)
    ensures BestLine(history, Reference(r.x + x, r.y + y), n, MovedLine(line, x, y))
  {
    var r' := Reference(r.x + x, r.y + y);
    MoveKeepsError(history, r, n, line, x, y);
    forall l: Line ensures Error(Newest(history, r', n), MovedLine(line, x, y)) <= Error(Newest(history, r', n), l) {
      var back := Line(l.slope, l.intercept - x as real * l.slope + y as real);
      assert MovedLine(back, x, y) == l;
      MoveKeepsError(history, r, n, back, x, y);
      assert Error(Newest(history, r, n), line) <= Error(Newest(history, r, n), back);
    }
  }

  lemma RegressedIsBestLine(history: seq<Stored>, r: Reference, n: nat, res: Result, was: Result)
    requires n <= |history| && Regressed(res, was, Newest(history, r, n))
    ensures BestLine(history, r, n, LineOf(res))
  {
    forall l: Line ensures Error(Newest(history, r, n), LineOf(res)) <= Error(Newest(history, r, n), l) {
      RegressedIsBest(res, was, Newest(history, r, n), l);
    }
  }
}
