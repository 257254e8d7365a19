/** The linear regression servo's state (linreg.c). */
module LinregServo {
  import opened CArith
  import opened DataSets
  import opened LeastSquares
  import opened Linreg
  import opened Servo

  /** The number of points of window k. */
  function WindowSize(k: nat): (n: nat)
    ensures n > 0
  {
    Pow2(MIN_SIZE + k)
  }

  lemma {:induction false} WindowsGrow(k: nat, m: nat)
    requires k <= m
    ensures WindowSize(k) <= WindowSize(m)
  {
    if k < m {
      WindowsGrow(k, m - 1);
    }
  }

  lemma WindowFits(k: nat)
    requires k < SIZES
    ensures 4 <= WindowSize(k) <= MAX_POINTS
  {
    WindowsGrow(0, k);
    WindowsGrow(k, SIZES - 1);
    assert Pow2(3) == 8;
    assert Pow2(6) == 64;
  }

  lemma NextSum(history: seq<Stored>, r: Reference, j: nat)
    requires j < |history|
    ensures SumsOf(Newest(history, r, j + 1)) == Plus(SumsOf(Newest(history, r, j)), Relative(history[|history| - 1 - j], r))
  {
    NewestPrefix(history, r, j + 1, j);
    hide Relative, Plus;
  }

  /** Where the point that is i older than the newest is, if that is at last. */
  function Slot(last: int, i: int): int {
    if i <= last then last - i else MAX_POINTS + last - i
  }

  lemma SlotIs(last: int, i: int)
    requires 0 <= last < MAX_POINTS && 0 <= i < MAX_POINTS
    ensures (MAX_POINTS + last - i) % MAX_POINTS == Slot(last, i)
  {
  }

  lemma NextSlot(last: int)
    requires 0 <= last < MAX_POINTS
    ensures (last + 1) % MAX_POINTS == if last + 1 < MAX_POINTS then last + 1 else 0
  {
  }

  /** A buffer of 64 points whose newest is at last holds the end of a history. */
  ghost predicate Holds(points: seq<Stored>, last: int, n: nat, history: seq<Stored>) {
    && |points| == MAX_POINTS && 0 <= last < MAX_POINTS
    && n == (if |history| < MAX_POINTS then |history| else MAX_POINTS)
    && forall i | 0 <= i < n :: points[Slot(last, i)] == history[|history| - 1 - i]
  }

  lemma NothingHeld(points: seq<Stored>, last: int)
    requires |points| == MAX_POINTS && 0 <= last < MAX_POINTS
    ensures Holds(points, last, 0, [])
  {
  }

  lemma NextHolds(points: seq<Stored>, last: int, n: nat, history: seq<Stored>, p: Stored)
    requires Holds(points, last, n, history)
    ensures var next := if last + 1 < MAX_POINTS then last + 1 else 0;
            Holds(points[next := p], next, if n < MAX_POINTS then n + 1 else n, history + [p])
  {
    var next, h := if last + 1 < MAX_POINTS then last + 1 else 0, history + [p];
    var m := if n < MAX_POINTS then n + 1 else n;
    forall i | 0 <= i < m ensures points[next := p][Slot(next, i)] == h[|h| - 1 - i] {
      if i > 0 {
        assert Slot(next, i) == Slot(last, i - 1) != next;
        assert points[Slot(last, i - 1)] == history[|history| - i];
      }
    }
  }

  /** The newest points can be regressed: two of the first four differ in x. */
  ghost predicate Sound(history: seq<Stored>, r: Reference) {
    && (forall i | 0 <= i < |history| :: history[i].w > 0.0)
    && (|history| >= 4 ==> Regressable(Newest(history, r, 4)))
  }

  lemma SoundWindow(history: seq<Stored>, r: Reference, n: nat)
    requires Sound(history, r) && 4 <= n <= |history|
    ensures Regressable(Newest(history, r, n))
    ensures SumsOf(Newest(history, r, n)).w != 0.0 && Denominator(SumsOf(Newest(history, r, n))) != 0.0
  {
    var ps := Newest(history, r, n);
    NewestPrefix(history, r, n, 4);
    assert forall i | 0 <= i < |ps| :: ps[i].w > 0.0;
    MoreRegressable(ps, 4);
    DenominatorIsPositive(ps);
  }

  /** Two of the n newest points differ in x. */
  ghost predicate Spread(history: seq<Stored>, n: nat) {
    n <= |history| && exists i, j | |history| - n <= i < j < |history| :: history[i].x != history[j].x
  }

  /** The condition under which no window divides by zero: the newest four points
      are not all at one x. */
  ghost predicate Fittable(history: seq<Stored>, x: int) {
    |history| >= 3 ==> exists i | |history| - 3 <= i < |history| :: history[i].x != x
  }

  lemma SpreadIsSound(h: seq<Stored>, r: Reference)
    requires forall i | 0 <= i < |h| :: h[i].w > 0.0
    requires |h| >= 4 ==> Spread(h, 4)
    ensures Sound(h, r)
  {
    if |h| >= 4 {
      var i, j :| |h| - 4 <= i < j < |h| && h[i].x != h[j].x;
      var ps := Newest(h, r, 4);
      var a, b := |h| - 1 - j, |h| - 1 - i;
      assert ps[a].x != ps[b].x;
      assert forall k | 0 <= k < 4 :: ps[k].w == h[|h| - 1 - k].w > 0.0;
      assert Regressable(ps);
    }
  }

  lemma FittableIsSpread(history: seq<Stored>, p: Stored)
    requires Fittable(history, p.x) && |history| >= 3
    ensures Spread(history + [p], 4)
  {
    var i :| |history| - 3 <= i < |history| && history[i].x != p.x;
    var h := history + [p];
    assert h[i].x != h[|history|].x;
  }

  /** An interval of the corrected clock, before its frequency correction. */
  function Uncorrected(interval: int, clockFreq: real): real
    requires clockFreq > -1000000000.0
  {
    interval as real / (1.0 + clockFreq / 1000000000.0)
  }

  /** The number of updates over which an offset is corrected. */
  function CorrectionUpdates(size: int): (n: int)
    requires size >= MIN_SIZE
    ensures n > 0
  {
    if size <= 4 then 1 else size / 2
  }

  /** A frequency (ppb) that keeps up with a line, and takes back its offset (ns)
      in a number of updates of some seconds each. */
  predicate Follows(freq: real, line: Line, interval: real, updates: int) {
    (freq - 1000000000.0 * (line.slope - 1.0)) * (interval * updates as real) == line.intercept
  }

  /** The frequency nearest to one that keeps up with the line and takes back its offset in
      the update to come, or in two or three with windows of 32 or of 64 points. */
  ghost predicate Tracks(freq: real, max: real, line: Line, interval: real, size: int) {
    exists want: real :: Nearest(want, max, freq) && Follows(want, line, interval, if size <= 4 then 1 else if size == 5 then 2 else 3)
  }

  lemma OffsetSpread(freq: real, line: Line, interval: real, updates: int)
    requires interval > 0.0 && updates > 0
    requires freq == 1000000000.0 * (line.slope - 1.0) + line.intercept / interval / updates as real
    ensures Follows(freq, line, interval, updates)
  {
    var per := line.intercept / interval;
    assert per * interval == line.intercept;
    assert (per / updates as real) * updates as real == per;
    assert freq - 1000000000.0 * (line.slope - 1.0) == per / updates as real;
    Regrouped(per / updates as real, interval, updates as real);
  }

  lemma Regrouped(a: real, b: real, c: real)
    ensures a * (b * c) == (a * c) * b
  {
  }

  // ---------------------------------------------------------------------
  // The selected size
  // ---------------------------------------------------------------------

  /** The window selected among the first n: each is compared with the one
      selected before it. */
  function Selection(rs: seq<Result>, n: nat): (size: nat)
    requires n <= |rs|
    ensures size == 0 || MIN_SIZE <= size < MIN_SIZE + n
  {
    if n == 0 then 0
    else
      var size := Selection(rs, n - 1);
      if Better(rs[n - 1], size, if size == 0 then 0.0 else rs[size - MIN_SIZE].err) then n - 1 + MIN_SIZE else size
  }

  /** None is selected only if no window has a line.  The selected window is the
      first that has one, or it has proved itself and its error is hardly larger
      than that of the one selected before; no larger window would replace it. */
  lemma {:induction false} SelectionFacts(rs: seq<Result>, n: nat)
    requires n <= |rs| && forall k | 0 <= k < |rs| :: rs[k].err >= 0.0
    ensures var size := Selection(rs, n);
            if size == 0 then forall k | 0 <= k < n :: rs[k].slope == 0.0
            else
              var res, before := rs[size - MIN_SIZE], Selection(rs, size - MIN_SIZE);
              && (if before == 0 then
                    res.slope != 0.0 && forall k | 0 <= k < size - MIN_SIZE :: rs[k].slope == 0.0
                  else res.errUpdates >= 10 && res.err < 1.05 * rs[before - MIN_SIZE].err)
              && forall k | size - MIN_SIZE < k < n :: rs[k].errUpdates < 10 || rs[k].err >= 1.05 * res.err
  {
    if n > 0 {
      SelectionFacts(rs, n - 1);
    }
  }

  lemma {:induction false} SelectionMoved(rs: seq<Result>, qs: seq<Result>, x: int, y: int, n: nat)
    requires n <= |rs| == |qs| && forall k | 0 <= k < |rs| :: qs[k] == MovedResult(rs[k], x, y)
    ensures Selection(qs, n) == Selection(rs, n)
  {
    if n > 0 {
      SelectionMoved(rs, qs, x, y, n - 1);
    }
  }

  /** What a servo is asked to do. */
  datatype Step =
    | TakeSample(offset: int, localTs: int, weight: real)
    | DoReset
    | SetLeap(leap: int)
    | SetInterval(interval: real)

  /** What an output of the servo depends on or changes, but for the lines. */
  datatype View = View(
    history: seq<Stored>, reference: Reference, remainder: real, lastUpdate: int, leap: int, interval: real,
    frequency: real, size: int, firstUpdate: bool, jumps: nat)

  /** The frequency and the state that a sample gives; other steps give none. */
  datatype Output = Output(freq: real, state: ServoState)

  /** The reference and its remainder when localTs has come. */
  function Advanced(v: View, localTs: int): (Reference, real)
    requires v.frequency > -1000000000.0
  {
    if v.lastUpdate == 0 then (v.reference, v.remainder)
    else
      var passed := localTs - v.lastUpdate;
      var x := Uncorrected(passed, v.frequency) + v.remainder;
      (Reference(v.reference.x + Trunc(x), v.reference.y + passed), x - Trunc(x) as real)
  }

  /** A sample adds its point at the advanced reference; a jump moves the reference. */
  ghost predicate SampleEffect(v: View, offset: int, localTs: int, weight: real, out: Output, w: View)
    requires v.frequency > -1000000000.0
  {
    var (r, remainder) := Advanced(v, localTs);
    var jump := out.state == JUMP;
    && w.history == v.history + [Stored(r.x, r.y - offset, weight)]
    && w.reference == Reference(r.x, r.y - if jump then offset else 0) && w.remainder == remainder
    && w.lastUpdate == localTs - (if jump then offset else 0)
    && w.leap == v.leap && w.interval == v.interval
    && out.freq == -w.frequency && (out.state == UNLOCKED <==> w.size == 0)
    && (out.state == UNLOCKED ==> w.frequency == v.frequency)
    && w.firstUpdate == (v.firstUpdate && out.state == UNLOCKED)
    && w.jumps == v.jumps + if jump then 1 else 0
  }

  /** What a step does and gives. */
  ghost predicate Effect(v: View, s: Step, out: Option<Output>, w: View)
    requires v.frequency > -1000000000.0
  {
    match s
    case TakeSample(offset, localTs, weight) => out.Some? && SampleEffect(v, offset, localTs, weight, out.value, w)
    case DoReset => out.None? && w == v.(history := [], lastUpdate := 0, size := 0)
    case SetLeap(leap) =>
      var applied := if v.leap != 0 && leap == 0 then v.leap * 1000000000 else 0;
      out.None? && w == v.(reference := Reference(v.reference.x, v.reference.y + applied), leap := leap)
    case SetInterval(interval) => out.None? && w == v.(interval := interval)
  }

  /** The views before and after each of a list of steps. */
  ghost predicate Chained(views: seq<View>, steps: seq<Step>, outs: seq<Option<Output>>) {
    && |views| == |steps| + 1 == |outs| + 1
    && (forall k | 0 <= k < |views| :: views[k].frequency > -1000000000.0)
    && forall k {:trigger steps[k]} | 0 <= k < |steps| :: Effect(views[k], steps[k], outs[k], views[k + 1])
  }

  predicate Jumps(out: Option<Output>) {
    out.Some? && out.value.state == JUMP
  }

  predicate Unlocked(out: Option<Output>) {
    out.Some? ==> out.value.state == UNLOCKED
  }

  function CountJumps(outs: seq<Option<Output>>): nat {
    if outs == [] then 0 else CountJumps(outs[..|outs| - 1]) + if Jumps(outs[|outs| - 1]) then 1 else 0
  }

  /** The weights of the samples since the last reset, behind those of before. */
  function WeightsAfter(before: seq<real>, steps: seq<Step>): seq<real> {
    if steps == [] then before
    else
      var ws := WeightsAfter(before, steps[..|steps| - 1]);
      match steps[|steps| - 1]
      case TakeSample(_, _, weight) => ws + [weight]
      case DoReset => []
      case SetLeap(_) | SetInterval(_) => ws
  }

  function Weights(history: seq<Stored>): (ws: seq<real>)
    ensures |ws| == |history|
  {
    seq(|history|, i requires 0 <= i < |history| => history[i].w)
  }

  lemma NoSteps(v: View)
    requires v.frequency > -1000000000.0
    ensures Chained([v], [], []) && CountJumps([]) == 0 && WeightsAfter(Weights(v.history), []) == Weights(v.history)
  {
  }

  lemma OneMore(views: seq<View>, steps: seq<Step>, outs: seq<Option<Output>>, s: Step, out: Option<Output>, w: View)
    requires Chained(views, steps, outs) && Effect(views[|steps|], s, out, w) && w.frequency > -1000000000.0
    ensures Chained(views + [w], steps + [s], outs + [out])
  {
    hide Effect;
    var vs, ss, os := views + [w], steps + [s], outs + [out];
    forall k | 0 <= k < |ss| ensures Effect(vs[k], ss[k], os[k], vs[k + 1]) {
      if k < |steps| {
        assert ss[k] == steps[k] && vs[k + 1] == views[k + 1];
      }
    }
  }

  /** The jumps that a chain counts are those that it gives, and the points that it
      leaves are those of the samples since the last reset. */
  lemma {:induction false} ChainCounts(views: seq<View>, steps: seq<Step>, outs: seq<Option<Output>>)
    requires Chained(views, steps, outs)
    ensures views[|steps|].jumps == views[0].jumps + CountJumps(outs)
    ensures Weights(views[|steps|].history) == WeightsAfter(Weights(views[0].history), steps)
  {
    if steps != [] {
      var n := |steps| - 1;
      ChainBefore(views, steps, outs);
      ChainCounts(views[..n + 1], steps[..n], outs[..n]);
      assert Effect(views[n], steps[n], outs[n], views[n + 1]);
      WeightsStep(views[n], steps[n], outs[n], views[n + 1]);
    }
  }

  lemma ChainBefore(views: seq<View>, steps: seq<Step>, outs: seq<Option<Output>>)
    requires Chained(views, steps, outs) && steps != []
    ensures var n := |steps| - 1; Chained(views[..n + 1], steps[..n], outs[..n])
  {
    hide Effect;
    var n := |steps| - 1;
    var vs, ss, os := views[..n + 1], steps[..n], outs[..n];
    forall k | 0 <= k < n ensures Effect(vs[k], ss[k], os[k], vs[k + 1]) {
      assert ss[k] == steps[k] && vs[k + 1] == views[k + 1];
    }
  }

  lemma WeightsStep(v: View, s: Step, out: Option<Output>, w: View)
    requires v.frequency > -1000000000.0 && Effect(v, s, out, w)
    ensures w.jumps == v.jumps + if Jumps(out) then 1 else 0
    ensures Weights(w.history) == match s
            case TakeSample(_, _, weight) => Weights(v.history) + [weight]
            case DoReset => []
            case SetLeap(_) | SetInterval(_) => Weights(v.history)
  {
    hide Advanced;
  }

  /** Where a jump needs the first update, which the first result that is not
      UNLOCKED ends, there is at most one. */
  lemma {:induction false} OneJump(views: seq<View>, steps: seq<Step>, outs: seq<Option<Output>>)
    requires Chained(views, steps, outs)
    requires forall k | 0 <= k < |steps| :: Jumps(outs[k]) ==> views[k].firstUpdate
    ensures forall i, j | 0 <= i < j < |steps| :: !(Jumps(outs[i]) && Jumps(outs[j]))
    ensures !views[0].firstUpdate ==> forall i | 0 <= i < |steps| :: !Jumps(outs[i])
    ensures views[|steps|].firstUpdate ==> views[0].firstUpdate && forall i | 0 <= i < |steps| :: Unlocked(outs[i])
  {
    hide SampleEffect, Advanced;
    if steps != [] {
      var n := |steps| - 1;
      ChainBefore(views, steps, outs);
      OneJump(views[..n + 1], steps[..n], outs[..n]);
      assert Effect(views[n], steps[n], outs[n], views[n + 1]);
      FirstUpdateStep(views[n], steps[n], outs[n], views[n + 1]);
      assert forall i | 0 <= i < n :: outs[..n][i] == outs[i];
    }
  }

  lemma FirstUpdateStep(v: View, s: Step, out: Option<Output>, w: View)
    requires v.frequency > -1000000000.0 && Effect(v, s, out, w)
    ensures w.firstUpdate == (v.firstUpdate && Unlocked(out))
  {
    hide Advanced;
  }

  class LinearRegression {
    const cfg: ServoConfig
    var firstUpdate: bool
    const points: array<Stored>
    var referenceX: int
    var referenceY: int
    var numPoints: nat
    var lastPoint: int
    var xRemainder: real
    var lastUpdate: int
    const results: array<Result>
    var size: int
    var clockFreq: real
    var updateInterval: real
    var frequencyRatio: real
    var leap: int
    /** Every point since the last reset. */
    ghost var history: seq<Stored>
    /** How often the clock was told to jump. */
    ghost var jumps: nat

    constructor (cfg: ServoConfig, fadj: int, interval: real)
      requires WellFormed(cfg) && cfg.maxFrequency < 1000000000.0 && fadj < 1000000000 && interval > 0.0
      ensures this.cfg == cfg && Ready() && BestLines() && history == [] && firstUpdate && jumps == 0
      ensures fresh(points) && fresh(results)
    {
      this.cfg, firstUpdate := cfg, true;
      points := new Stored[MAX_POINTS](_ => Stored(0, 0, 0.0));
      results := new Result[SIZES](_ => Result(0.0, 0.0, 0.0, 0));
      referenceX, referenceY, numPoints, lastPoint, xRemainder, lastUpdate := 0, 0, 0, 0, 0.0, 0;
      size, clockFreq, updateInterval, frequencyRatio, leap := 0, -(fadj as real), interval, 1.0, 0;
      history, jumps := [], 0;
    }

    ghost predicate Valid()
      reads this`lastPoint, this`numPoints, this`history, points, results
    {
      && points.Length == MAX_POINTS && results.Length == SIZES
      && Holds(points[..], lastPoint, numPoints, history)
    }

    function Ref(): Reference
      reads this`referenceX, this`referenceY
    {
      Reference(referenceX, referenceY)
    }

    ghost function Now(): View
      reads this
    {
      View(history, Ref(), xRemainder, lastUpdate, leap, updateInterval, clockFreq, size, firstUpdate, jumps)
    }

    /** Where the reference is going to be, and with it the x of the next point. */
    function NextX(localTs: int): int
      requires clockFreq > -1000000000.0
      reads this
    {
      if lastUpdate == 0 then referenceX
      else referenceX + Trunc(Uncorrected(localTs - lastUpdate, clockFreq) + xRemainder)
    }

    /** move_reference() */
    method MoveReference(x: int, y: int)
      requires results.Length == SIZES
      modifies this`referenceX, this`referenceY, results
      ensures Ref() == Reference(old(referenceX) + x, old(referenceY) + y)
      ensures forall k | 0 <= k < SIZES :: results[k] == MovedResult(old(results[k]), x, y)
    {
      referenceX := referenceX + x;
      referenceY := referenceY + y;
      for i := 0 to SIZES
        invariant Ref() == Reference(old(referenceX) + x, old(referenceY) + y)
        invariant forall k | 0 <= k < i :: results[k] == MovedResult(old(results[k]), x, y)
        invariant forall k | i <= k < SIZES :: results[k] == old(results[k])
      {
        results[i] := MovedResult(results[i], x, y);
      }
    }

    /** update_reference(): the time that passed is taken over into the reference
        without losing its fraction. */
    method UpdateReference(localTs: int)
      requires results.Length == SIZES && clockFreq > -1000000000.0
      modifies this`referenceX, this`referenceY, this`xRemainder, this`lastUpdate, results
      ensures lastUpdate == localTs && referenceX == old(NextX(localTs))
      ensures (Ref(), xRemainder) == Advanced(old(Now()), localTs)
      ensures forall k | 0 <= k < SIZES :: results[k].err == old(results[k]).err
      ensures forall k | 0 <= k < SIZES :: results[k]
                == MovedResult(old(results[k]), referenceX - old(referenceX), referenceY - old(referenceY))
      ensures if old(lastUpdate) == 0 then Ref() == old(Ref()) && xRemainder == old(xRemainder)
              else
                && referenceY == old(referenceY) + localTs - old(lastUpdate)
                && referenceX as real + xRemainder
                   == old(referenceX) as real + old(xRemainder) + Uncorrected(localTs - old(lastUpdate), clockFreq)
                && -1.0 < xRemainder < 1.0
    {
      if lastUpdate != 0 {
        var yInterval := localTs - lastUpdate;
        var xInterval := Uncorrected(yInterval, clockFreq);
        xInterval := xInterval + xRemainder;
        xRemainder := xInterval - Trunc(xInterval) as real;
        MoveReference(Trunc(xInterval), yInterval);
      } else {
        assert forall k | 0 <= k < SIZES :: MovedResult(results[k], 0, 0) == results[k];
      }
      lastUpdate := localTs;
    }

    /** add_sample() */
    method AddSample(offset: int, weight: real)
      requires Valid()
      modifies this`lastPoint, this`numPoints, this`history, points
      ensures Valid()
      ensures history == old(history) + [Stored(referenceX, referenceY - offset, weight)]
    {
      ghost var was, p := points[..], Stored(referenceX, referenceY - offset, weight);
      NextHolds(was, lastPoint, numPoints, history, p);
      NextSlot(lastPoint);
      lastPoint := (lastPoint + 1) % MAX_POINTS;
      points[lastPoint] := Stored(referenceX, referenceY - offset, weight);
      assert points[..] == was[lastPoint := p];
      if numPoints < MAX_POINTS {
        numPoints := numPoints + 1;
      }
      history := history + [p];
    }

    /** The inner loop of regress(): adds the points from i to n. */
    method Accumulate(sums: Sums, i: nat, n: nat) returns (r: Sums)
      requires Valid() && i <= n <= numPoints
      requires sums == SumsOf(Newest(history, Ref(), i))
      ensures r == SumsOf(Newest(history, Ref(), n))
    {
      hide SumsOf, Newest, Plus;
      r := sums;
      for j := i to n
        invariant r == SumsOf(Newest(history, Ref(), j))
      {
        SlotIs(lastPoint, j);
        var p := points[(MAX_POINTS + lastPoint - j) % MAX_POINTS];
        assert p == history[|history| - 1 - j];
        NextSum(history, Ref(), j);
        r := Plus(r, Point((p.x - referenceX) as real, (p.y - referenceY) as real, p.w));
      }
    }

    /** What regress() has done to the windows before k. */
    ghost predicate RegressedUpTo(was: seq<Result>, k: nat)
      requires |was| == results.Length == SIZES
      reads this, results
    {
      && (forall j | 0 <= j < k && j < SIZES ::
            WindowSize(j) <= |history| && Regressed(results[j], was[j], Newest(history, Ref(), WindowSize(j))))
      && (forall j | k <= j < SIZES :: results[j] == was[j])
    }

    /** What regress() does: a new line for each window that has enough points. */
    ghost predicate RegressedAll(was: seq<Result>)
      requires |was| == results.Length == SIZES
      reads this, results
    {
      forall j | 0 <= j < SIZES ::
        if WindowSize(j) <= |history| then Regressed(results[j], was[j], Newest(history, Ref(), WindowSize(j)))
        else results[j] == was[j]
    }

    lemma RegressedFor(was: seq<Result>, k: nat)
      requires |was| == results.Length == SIZES && k <= SIZES && RegressedUpTo(was, k)
      requires k < SIZES ==> WindowSize(k) > |history|
      ensures RegressedAll(was)
    {
      forall j: nat | k <= j < SIZES ensures WindowSize(j) > |history| {
        WindowsGrow(k, j);
      }
    }

    lemma ManyPoints()
      requires Valid()
      ensures numPoints <= |history| && numPoints <= MAX_POINTS
    {
    }

    lemma NewestIsFirst(n: nat)
      requires 0 < n <= |history|
      ensures Newest(history, Ref(), n)[0].y == NewestY()
    {
    }

    /** One window of regress(). */
    method RegressWindow(ghost was: seq<Result>, k: nat, sums: Sums, y0: real)
      requires Valid() && k < SIZES && WindowSize(k) <= numPoints && Sound(history, Ref())
      requires |was| == SIZES && RegressedUpTo(was, k)
      requires sums == SumsOf(Newest(history, Ref(), WindowSize(k))) && y0 == NewestY()
      modifies results
      ensures RegressedUpTo(was, k + 1)
    {
      hide WindowSize, Newest, SumsOf, Denominator, Fit, ErrUpdated, WithLine, Regressable, Sound;
      WindowFits(k);
      ManyPoints();
      SoundWindow(history, Ref(), WindowSize(k));
      NewestIsFirst(WindowSize(k));
      ghost var before := results[..];
      var l := Fit(sums);
      results[k] := WithLine(ErrUpdated(results[k], y0), l);
      assert forall j | 0 <= j < SIZES && j != k :: results[j] == before[j];
    }

    /** The newest y, relative to the reference. */
    ghost function NewestY(): real
      requires history != []
      reads this
    {
      (history[|history| - 1].y - referenceY) as real
    }

    method ReadNewestY() returns (y0: real)
      requires Valid() && numPoints > 0
      ensures y0 == NewestY()
    {
      assert points[Slot(lastPoint, 0)] == history[|history| - 1];
      y0 := (points[lastPoint].y - referenceY) as real;
    }

    lemma NoPoints()
      requires Valid()
      ensures SumsOf(Newest(history, Ref(), 0)) == Sums(0.0, 0.0, 0.0, 0.0, 0.0)
      ensures WindowSize(0) == Pow2(MIN_SIZE) && forall k: nat :: WindowSize(k) == Pow2(MIN_SIZE + k)
    {
    }

    /** regress(): the windows that have enough points get a new line, from sums
        that each window takes over from the one before it. */
    method Regress()
      requires Valid() && Sound(history, Ref()) && numPoints > 0
      modifies results
      ensures RegressedAll(old(results[..]))
    {
      hide WindowSize, Newest, SumsOf, Regressed, Sound, Holds;
      NoPoints();
      ManyPoints();
      var sums, i: nat := Sums(0.0, 0.0, 0.0, 0.0, 0.0), 0;
      var y0 := ReadNewestY();
      var k := 0;
      while k < SIZES && Pow2(MIN_SIZE + k) <= numPoints
        invariant 0 <= k <= SIZES && i <= numPoints && (k < SIZES ==> i <= WindowSize(k))
        invariant sums == SumsOf(Newest(history, Ref(), i))
        invariant RegressedUpTo(old(results[..]), k)
      {
        sums, i := RegressNext(old(results[..]), k, sums, i, y0);
        k := k + 1;
      }
      RegressStops(old(results[..]), k);
    }

    lemma RegressStops(was: seq<Result>, k: nat)
      requires Valid() && |was| == SIZES && k <= SIZES && RegressedUpTo(was, k)
      requires k < SIZES ==> WindowSize(k) > numPoints
      ensures RegressedAll(was)
    {
      if k < SIZES {
        WindowFits(k);
      }
      RegressedFor(was, k);
    }

    method RegressNext(ghost was: seq<Result>, k: nat, sums: Sums, i: nat, y0: real) returns (r: Sums, n: nat)
      requires Valid() && k < SIZES && i <= WindowSize(k) <= numPoints && Sound(history, Ref()) && |was| == SIZES
      requires sums == SumsOf(Newest(history, Ref(), i)) && y0 == NewestY() && RegressedUpTo(was, k)
      modifies results
      ensures n == WindowSize(k) && r == SumsOf(Newest(history, Ref(), n)) && RegressedUpTo(was, k + 1)
      ensures k + 1 < SIZES ==> n <= WindowSize(k + 1)
    {
      WindowsGrow(k, k + 1);
      n := Pow2(MIN_SIZE + k);
      r := Accumulate(sums, i, n);
      RegressWindow(was, k, r, y0);
    }

    /** update_size() */
    method UpdateSize()
      requires results.Length == SIZES
      modifies this`size
      ensures size == Selection(results[..], SIZES)
    {
      var bestSize, bestErr := 0, 0.0;
      for i := MIN_SIZE to MAX_SIZE + 1
        invariant bestSize == Selection(results[..], i - MIN_SIZE)
        invariant bestErr == if bestSize == 0 then 0.0 else results[bestSize - MIN_SIZE].err
      {
        var res := results[i - MIN_SIZE];
        if Better(res, bestSize, bestErr) {
          bestSize, bestErr := i, res.err;
        }
      }
      size := bestSize;
    }

    /** The line of each window that has enough points has the least weighted
        squared error over exactly these points. */
    ghost predicate BestLines()
      requires results.Length == SIZES
      reads this`history, this`referenceX, this`referenceY, results
    {
      forall k: nat | k < SIZES && WindowSize(k) <= |history| :: BestLine(history, Ref(), WindowSize(k), LineOf(results[k]))
    }

    lemma RegressedIsBestLines(was: seq<Result>)
      requires |was| == results.Length == SIZES && RegressedAll(was)
      ensures BestLines()
    {
      forall k: nat | k < SIZES && WindowSize(k) <= |history|
        ensures BestLine(history, Ref(), WindowSize(k), LineOf(results[k]))
      {
        RegressedIsBestLine(history, Ref(), WindowSize(k), results[k], was[k]);
      }
    }

    lemma RegressedErrs(was: seq<Result>)
      requires |was| == results.Length == SIZES && RegressedAll(was) && forall k | 0 <= k < SIZES :: was[k].err >= 0.0
      ensures forall k | 0 <= k < SIZES :: results[k].err >= 0.0
    {
      forall k | 0 <= k < SIZES ensures results[k].err >= 0.0 {
        if WindowSize(k) <= |history| {
          ErrNotNegative(was[k], Newest(history, Ref(), WindowSize(k))[0].y);
        }
      }
    }

    /** What holds between samples. */
    ghost predicate Ready()
      reads this, points, results
    {
      && Valid() && WellFormed(cfg) && cfg.maxFrequency < 1000000000.0
      && clockFreq > -1000000000.0 && updateInterval > 0.0
      && (forall i | 0 <= i < |history| :: history[i].w > 0.0)
      && (forall k | 0 <= k < SIZES :: results[k].err >= 0.0)
      && (size == 0 || MIN_SIZE <= size <= MAX_SIZE)
      && (cfg.stepThreshold == 0.0 ==> jumps + (if firstUpdate then 1 else 0) <= 1)
    }

    /** The first half of linreg_sample(). */
    method Measure(offset: int, localTs: int, weight: real)
      requires Ready() && weight > 0.0 && Fittable(history, NextX(localTs))
      modifies this`referenceX, this`referenceY, this`xRemainder, this`lastUpdate, this`lastPoint, this`numPoints
      modifies this`history, this`size, points, results
      ensures Ready() && BestLines() && lastUpdate == localTs
      ensures history == old(history) + [Stored(referenceX, referenceY - offset, weight)]
      ensures (Ref(), xRemainder) == Advanced(old(Now()), localTs)
      ensures size == Selection(results[..], SIZES)
    {
      Place(offset, localTs, weight);
      Refit();
    }

    method Place(offset: int, localTs: int, weight: real)
      requires Ready() && weight > 0.0 && Fittable(history, NextX(localTs))
      modifies this`referenceX, this`referenceY, this`xRemainder, this`lastUpdate, this`lastPoint, this`numPoints
      modifies this`history, points, results
      ensures Ready() && Sound(history, Ref()) && lastUpdate == localTs
      ensures history == old(history) + [Stored(referenceX, referenceY - offset, weight)]
      ensures (Ref(), xRemainder) == Advanced(old(Now()), localTs)
    {
      hide Advanced, Holds, BestLine, MovedResult;
      UpdateReference(localTs);
      ghost var p := Stored(referenceX, referenceY - offset, weight);
      if |history| >= 3 {
        FittableIsSpread(history, p);
      }
      SpreadIsSound(history + [p], Ref());
      AddSample(offset, weight);
    }

    method Refit()
      requires Ready() && Sound(history, Ref()) && numPoints > 0
      modifies this`size, results
      ensures Ready() && BestLines()
      ensures size == Selection(results[..], SIZES)
    {
      ghost var was := results[..];
      Regress();
      RegressedIsBestLines(was);
      RegressedErrs(was);
      UpdateSize();
    }

    /** The offset by the selected line before a jump moved it. */
    function Measured(offset: int, state: ServoState): real
      requires results.Length == SIZES && MIN_SIZE <= size <= MAX_SIZE
      reads this, results
    {
      results[size - MIN_SIZE].intercept - if state == JUMP then offset as real else 0.0
    }

    /** The second half of linreg_sample(). */
    method Control(offset: int) returns (freq: real, state: ServoState)
      requires Ready() && BestLines()
      modifies this`referenceX, this`referenceY, this`lastUpdate, this`clockFreq, this`frequencyRatio, results
      ensures Ready() && BestLines()
      ensures freq == -clockFreq
      ensures state == UNLOCKED <==> size == 0
      ensures size == 0 ==> clockFreq == old(clockFreq)
      ensures size != 0 ==>
                && -cfg.maxFrequency <= freq <= cfg.maxFrequency
                && (state == JUMP <==> TooLarge(cfg, firstUpdate, Measured(offset, state)))
                && Tracks(clockFreq, cfg.maxFrequency, LineOf(results[size - MIN_SIZE]), updateInterval, size)
                && frequencyRatio == results[size - MIN_SIZE].slope / (1.0 + clockFreq / 1000000000.0)
      ensures referenceX == old(referenceX) && referenceY == old(referenceY) - (if state == JUMP then offset else 0)
      ensures lastUpdate == old(lastUpdate) - (if state == JUMP then offset else 0)
      ensures Selection(results[..], SIZES) == Selection(old(results[..]), SIZES)
    {
      hide BestLine, BestLines, Tracks, Holds, CorrectionUpdates, Selection, LineOf, Steps, TooLarge;
      if size < MIN_SIZE {
        return -clockFreq, UNLOCKED;
      }
      StepsIfTooLarge(cfg, firstUpdate, results[size - MIN_SIZE].intercept);
      if Steps(cfg, firstUpdate, results[size - MIN_SIZE].intercept) {
        JumpBy(offset);
        state := JUMP;
      } else {
        state := LOCKED;
      }
      var res := results[size - MIN_SIZE];
      SetFrequency(res);
      freq := -clockFreq;
    }

    /** The clock is going to be stepped: the reference moves ahead of it. */
    method JumpBy(offset: int)
      requires Ready() && BestLines()
      modifies this`referenceX, this`referenceY, this`lastUpdate, results
      ensures Ready() && BestLines()
      ensures Ref() == Reference(old(referenceX), old(referenceY) - offset) && lastUpdate == old(lastUpdate) - offset
      ensures forall k | 0 <= k < SIZES :: results[k].intercept == old(results[k]).intercept + offset as real
      ensures Selection(results[..], SIZES) == Selection(old(results[..]), SIZES)
    {
      hide BestLine, BestLines, Holds, Selection;
      ghost var was := results[..];
      MoveLines(0, -offset);
      SelectionMoved(was, results[..], 0, -offset, SIZES);
      lastUpdate := lastUpdate - offset;
    }

    /** Moves the reference; the lines stay the best. */
    method MoveLines(x: int, y: int)
      requires Ready() && BestLines()
      modifies this`referenceX, this`referenceY, results
      ensures Ready() && BestLines()
      ensures Ref() == Reference(old(referenceX) + x, old(referenceY) + y)
      ensures forall k | 0 <= k < SIZES :: results[k] == MovedResult(old(results[k]), x, y)
    {
      ghost var h, r, was := history, Ref(), results[..];
      MoveReference(x, y);
      forall k: nat | k < SIZES && WindowSize(k) <= |history|
        ensures BestLine(history, Ref(), WindowSize(k), LineOf(results[k]))
      {
        assert BestLine(h, r, WindowSize(k), LineOf(was[k]));
        assert results[k] == MovedResult(was[k], x, y);
        MovedLineOf(was[k], x, y);
        MoveKeepsBest(h, r, WindowSize(k), LineOf(was[k]), x, y);
      }
    }

    method SetFrequency(res: Result)
      requires WellFormed(cfg) && cfg.maxFrequency < 1000000000.0 && updateInterval > 0.0 && MIN_SIZE <= size <= MAX_SIZE
      modifies this`clockFreq, this`frequencyRatio
      ensures -cfg.maxFrequency <= clockFreq <= cfg.maxFrequency
      ensures Tracks(clockFreq, cfg.maxFrequency, LineOf(res), updateInterval, size)
      ensures frequencyRatio == res.slope / (1.0 + clockFreq / 1000000000.0)
    {
      var corrInterval := CorrectionUpdates(size);
      var freq := 1000000000.0 * (res.slope - 1.0) + res.intercept / updateInterval / corrInterval as real;
      OffsetSpread(freq, LineOf(res), updateInterval, corrInterval);
      clockFreq := Clamp(freq, cfg.maxFrequency);
      assert Nearest(freq, cfg.maxFrequency, clockFreq);
      Ratio(clockFreq);
      frequencyRatio := res.slope / (1.0 + clockFreq / 1000000000.0);
    }

    /** The control half, and what servo_sample() makes of its state. */
    method Conclude(offset: int) returns (freq: real, state: ServoState)
      requires Ready() && BestLines()
      modifies this`referenceX, this`referenceY, this`lastUpdate, this`clockFreq, this`frequencyRatio, results
      modifies this`jumps, this`firstUpdate
      ensures Ready() && BestLines()
      ensures var moved := if state == JUMP then offset else 0;
              Now() == old(Now()).(
                reference := Reference(old(referenceX), old(referenceY) - moved), lastUpdate := old(lastUpdate) - moved,
                frequency := -freq, firstUpdate := old(firstUpdate) && state == UNLOCKED,
                jumps := old(jumps) + if state == JUMP then 1 else 0)
      ensures Selection(results[..], SIZES) == Selection(old(results[..]), SIZES)
      ensures (state == UNLOCKED <==> size == 0) && (state == UNLOCKED ==> clockFreq == old(clockFreq))
      ensures state != UNLOCKED ==>
                && -cfg.maxFrequency <= freq <= cfg.maxFrequency
                && Tracks(clockFreq, cfg.maxFrequency, LineOf(results[size - MIN_SIZE]), updateInterval, size)
      ensures state == JUMP <==> size != 0 && TooLarge(cfg, old(firstUpdate), Measured(offset, state))
      ensures state == JUMP && cfg.stepThreshold == 0.0 ==> old(firstUpdate)
    {
      hide Selection, Tracks, BestLine, BestLines, Holds, LineOf, CorrectionUpdates;
      freq, state := Control(offset);
      jumps := jumps + (if state == JUMP then 1 else 0);
      if state != UNLOCKED {
        firstUpdate := false;
      }
    }

    /** linreg_sample() behind servo_sample(). */
    method Sample(offset: int, localTs: int, weight: real) returns (freq: real, state: ServoState)
      requires Ready() && weight > 0.0 && Fittable(history, NextX(localTs))
      modifies this, points, results
      ensures Ready() && BestLines()
      ensures SampleEffect(old(Now()), offset, localTs, weight, Output(freq, state), Now())
      ensures size == Selection(results[..], SIZES)
      ensures state != UNLOCKED ==>
                && -cfg.maxFrequency <= freq <= cfg.maxFrequency
                && Tracks(clockFreq, cfg.maxFrequency, LineOf(results[size - MIN_SIZE]), updateInterval, size)
      ensures state == JUMP <==> size != 0 && TooLarge(cfg, old(firstUpdate), Measured(offset, state))
      ensures state == JUMP && cfg.stepThreshold == 0.0 ==> old(firstUpdate)
    {
      hide Advanced, Selection, Tracks, BestLine, BestLines, Holds, LineOf, CorrectionUpdates;
      Measure(offset, localTs, weight);
      freq, state := Conclude(offset);
    }

    /** linreg_sync_interval() */
    method SyncInterval(interval: real)
      requires Ready() && BestLines() && interval > 0.0
      modifies this`updateInterval
      ensures Ready() && BestLines() && Now() == old(Now()).(interval := interval)
    {
      updateInterval := interval;
    }

    lemma InPlace()
      requires Valid()
      ensures points.Length == MAX_POINTS && 0 <= lastPoint < MAX_POINTS
    {
    }

    /** linreg_reset() */
    method Reset()
      requires Ready()
      modifies this`numPoints, this`lastUpdate, this`size, this`frequencyRatio, this`history, results
      ensures Ready() && BestLines() && Now() == old(Now()).(history := [], lastUpdate := 0, size := 0) && frequencyRatio == 1.0
      ensures forall k | 0 <= k < SIZES :: results[k] == old(results[k]).(slope := 0.0, errUpdates := 0)
    {
      InPlace();
      NothingHeld(points[..], lastPoint);
      hide Holds, BestLine;
      numPoints, lastUpdate, size, frequencyRatio, history := 0, 0, 0, 1.0, [];
      for i := 0 to SIZES
        invariant Ready() && Now() == old(Now()).(history := [], lastUpdate := 0, size := 0) && frequencyRatio == 1.0
        invariant forall k | 0 <= k < i :: results[k] == old(results[k]).(slope := 0.0, errUpdates := 0)
        invariant forall k | i <= k < SIZES :: results[k] == old(results[k])
      {
        results[i] := results[i].(slope := 0.0, errUpdates := 0);
      }
    }

    /** linreg_leap(): when a leap second was applied to the reference time. */
    method Leap(leap: int)
      requires Ready() && BestLines()
      modifies this`leap, this`referenceX, this`referenceY, results
      ensures Ready() && BestLines() && this.leap == leap
      ensures Ref() == Reference(old(referenceX),
                old(referenceY) + if old(this.leap) != 0 && leap == 0 then old(this.leap) * 1000000000 else 0)
    {
      if this.leap != 0 && leap == 0 {
        MoveLines(0, this.leap * 1000000000);
      }
      this.leap := leap;
    }

    /** Whether a step can be taken: weights and intervals are positive, and no
        window would divide by zero. */
    ghost predicate Takes(s: Step)
      requires clockFreq > -1000000000.0
      reads this
    {
      match s
      case TakeSample(_, localTs, weight) => weight > 0.0 && Fittable(history, NextX(localTs))
      case SetInterval(interval) => interval > 0.0
      case DoReset | SetLeap(_) => true
    }

    method CanTake(s: Step) returns (ok: bool)
      requires Ready()
      ensures ok == Takes(s)
    {
      match s
      case TakeSample(_, localTs, weight) =>
        ok := CanFit(NextX(localTs));
        ok := ok && weight > 0.0;
      case SetInterval(interval) => ok := interval > 0.0;
      case DoReset | SetLeap(_) => ok := true;
    }

    method CanFit(x: int) returns (ok: bool)
      requires Valid()
      ensures ok == Fittable(history, x)
    {
      ok := numPoints < 3;
      var i := 0;
      while !ok && i < 3
        invariant i <= 3 && (ok ==> Fittable(history, x))
        invariant !ok ==> |history| >= 3 && forall k | |history| - i <= k < |history| :: history[k].x == x
      {
        SlotIs(lastPoint, i);
        var p := points[(MAX_POINTS + lastPoint - i) % MAX_POINTS];
        assert p == history[|history| - 1 - i];
        ok := p.x != x;
        i := i + 1;
      }
    }

    method Take(s: Step) returns (out: Option<Output>)
      requires Ready() && BestLines() && Takes(s)
      modifies this, points, results
      ensures Ready() && BestLines() && Effect(old(Now()), s, out, Now())
      ensures out.Some? && out.value.state != UNLOCKED ==> -cfg.maxFrequency <= out.value.freq <= cfg.maxFrequency
      ensures Jumps(out) && cfg.stepThreshold == 0.0 ==> old(firstUpdate)
    {
      hide SampleEffect;
      out := None;
      match s
      case TakeSample(offset, localTs, weight) =>
        var freq, state := Sample(offset, localTs, weight);
        out := Some(Output(freq, state));
      case DoReset => Reset();
      case SetLeap(leap) => Leap(leap);
      case SetInterval(interval) => SyncInterval(interval);
    }

    /** Takes steps, up to the first that cannot be taken.  The views are those
        before and after each step.  All jumps are among the outputs, the points kept
        are those of the samples since the last reset, and without a step threshold
        the clock jumps at most once. */
    method Run(steps: seq<Step>) returns (n: nat, outs: seq<Option<Output>>, ghost views: seq<View>)
      requires Ready() && BestLines()
      modifies this, points, results
      ensures Ready() && BestLines()
      ensures n <= |steps| && (n < |steps| ==> !Takes(steps[n]))
      ensures Chained(views, steps[..n], outs) && views[0] == old(Now()) && views[n] == Now()
      ensures jumps == old(jumps) + CountJumps(outs)
      ensures Weights(history) == WeightsAfter(Weights(old(history)), steps[..n])
      ensures forall k | 0 <= k < n && !Unlocked(outs[k]) :: -cfg.maxFrequency <= outs[k].value.freq <= cfg.maxFrequency
      ensures cfg.stepThreshold == 0.0 ==>
                && (forall i, j | 0 <= i < j < n :: !(Jumps(outs[i]) && Jumps(outs[j])))
                && (!old(firstUpdate) ==> forall i | 0 <= i < n :: !Jumps(outs[i]))
    {
      n, outs, views := 0, [], [Now()];
      NoSteps(Now());
      assert steps[..0] == [];
      hide Effect;
      while n < |steps|
        invariant Ready() && BestLines() && n <= |steps|
        invariant Chained(views, steps[..n], outs) && views[0] == old(Now()) && views[n] == Now()
        invariant forall k | 0 <= k < n && !Unlocked(outs[k]) :: -cfg.maxFrequency <= outs[k].value.freq <= cfg.maxFrequency
        invariant cfg.stepThreshold == 0.0 ==> forall k | 0 <= k < n :: Jumps(outs[k]) ==> views[k].firstUpdate
      {
        var ok := CanTake(steps[n]);
        if !ok {
          break;
        }
        n, outs, views := TakeNext(steps, n, outs, views);
      }
      ChainCounts(views, steps[..n], outs);
      if cfg.stepThreshold == 0.0 {
        OneJump(views, steps[..n], outs);
      }
    }

    method TakeNext(steps: seq<Step>, n: nat, outs: seq<Option<Output>>, ghost views: seq<View>)
      returns (m: nat, os: seq<Option<Output>>, ghost vs: seq<View>)
      requires Ready() && BestLines() && n < |steps| && Takes(steps[n])
      requires Chained(views, steps[..n], outs) && views[n] == Now()
      requires forall k | 0 <= k < n && !Unlocked(outs[k]) :: -cfg.maxFrequency <= outs[k].value.freq <= cfg.maxFrequency
      requires cfg.stepThreshold == 0.0 ==> forall k | 0 <= k < n :: Jumps(outs[k]) ==> views[k].firstUpdate
      modifies this, points, results
      ensures Ready() && BestLines() && m == n + 1
      ensures Chained(vs, steps[..m], os) && vs[0] == views[0] && vs[m] == Now()
      ensures forall k | 0 <= k < m && !Unlocked(os[k]) :: -cfg.maxFrequency <= os[k].value.freq <= cfg.maxFrequency
      ensures cfg.stepThreshold == 0.0 ==> forall k | 0 <= k < m :: Jumps(os[k]) ==> vs[k].firstUpdate
    {
      hide Effect;
      var out := Take(steps[n]);
      OneMore(views, steps[..n], outs, steps[n], out, Now());
      assert steps[..n + 1] == steps[..n] + [steps[n]];
      m, os, vs := n + 1, outs + [out], views + [Now()];
    }
  }

  lemma Ratio(clockFreq: real)
    requires clockFreq > -1000000000.0
    ensures 1.0 + clockFreq / 1000000000.0 > 0.0
  {
  }
}
