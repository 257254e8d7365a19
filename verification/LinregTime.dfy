/** The reference of the linear regression servo and its points over a run (linreg.c):
    x is the time of the clock without its frequency corrections, y the time of the master. */
module LinregTime {
  import opened CArith
  import opened DataSets
  import opened RealArith
  import opened LeastSquares
  import opened Linreg
  import opened Servo
  import opened LinregServo

  /** What an interval of the corrected clock is without a correction of freq ppb. */
  function WithoutCorrection(passed: int, freq: real): real
    requires freq > -1000000000.0
  {
    1000000000.0 * passed as real / (1000000000.0 + freq)
  }

  lemma UncorrectedIs(passed: int, freq: real)
    requires freq > -1000000000.0
    ensures Uncorrected(passed, freq) == WithoutCorrection(passed, freq)
  {
    var d := 1.0 + freq / 1000000000.0;
    Same(passed as real, d, 1000000000.0 + freq, passed as real / d, 1000000000.0 * passed as real / (1000000000.0 + freq));
  }

  lemma Same(p: real, d: real, e: real, a: real, b: real)
    requires e > 0.0 && e == 1000000000.0 * d && a == p / d && b == 1000000000.0 * p / e
    ensures a == b
  {
    assert a * d == p;
    assert b * e == 1000000000.0 * p;
    assert (a - b) * e == 0.0;
  }

  /** Samples, leap seconds and intervals, but no reset, between views in which the servo has
      had a sample. */
  ghost predicate Running(views: seq<View>, steps: seq<Step>, outs: seq<Option<Output>>) {
    && Chained(views, steps, outs)
    && (forall k | 0 <= k < |steps| :: !steps[k].DoReset?)
    && forall k | 0 <= k < |views| :: views[k].lastUpdate != 0
  }

  /** The time that passes up to each sample, without the corrections of then. */
  ghost function Elapsed(views: seq<View>, steps: seq<Step>): real
    requires |views| == |steps| + 1 && forall k | 0 <= k < |views| :: views[k].frequency > -1000000000.0
  {
    if steps == [] then 0.0
    else
      var n := |steps| - 1;
      Elapsed(views[..n + 1], steps[..n]) +
      if steps[n].TakeSample? then WithoutCorrection(steps[n].localTs - views[n].lastUpdate, views[n].frequency) else 0.0
  }

  /** The leap seconds that are applied, in nanoseconds: when one is announced no more. */
  ghost function Leapt(views: seq<View>, steps: seq<Step>): int
    requires |views| == |steps| + 1
  {
    if steps == [] then 0
    else
      var n := |steps| - 1;
      Leapt(views[..n + 1], steps[..n]) +
      if steps[n].SetLeap? && steps[n].leap == 0 then 1000000000 * views[n].leap else 0
  }

  lemma RunningBefore(views: seq<View>, steps: seq<Step>, outs: seq<Option<Output>>)
    requires Running(views, steps, outs) && steps != []
    ensures var n := |steps| - 1; Running(views[..n + 1], steps[..n], outs[..n])
  {
    ChainBefore(views, steps, outs);
  }

  lemma SampleKeepsTime(v: View, s: Step, out: Option<Output>, w: View)
    requires v.frequency > -1000000000.0 && v.lastUpdate != 0 && s.TakeSample? && Effect(v, s, out, w)
    ensures w.reference.x as real + w.remainder
         == v.reference.x as real + v.remainder + WithoutCorrection(s.localTs - v.lastUpdate, v.frequency)
    ensures w.reference.y - w.lastUpdate == v.reference.y - v.lastUpdate && -1.0 < w.remainder < 1.0
    ensures w.history == v.history + [Stored(w.reference.x, s.localTs + (v.reference.y - v.lastUpdate) - s.offset, s.weight)]
  {
    UncorrectedIs(s.localTs - v.lastUpdate, v.frequency);
    hide Uncorrected, WithoutCorrection;
  }

  /** The first sample, since the beginning or a reset, is taken at the reference as it is. */
  lemma FirstSample(v: View, s: Step, out: Option<Output>, w: View)
    requires v.frequency > -1000000000.0 && v.lastUpdate == 0 && s.TakeSample? && Effect(v, s, out, w)
    ensures w.history == v.history + [Stored(v.reference.x, v.reference.y - s.offset, s.weight)]
    ensures w.reference.x == v.reference.x && w.remainder == v.remainder
    ensures w.reference.y - w.lastUpdate == v.reference.y - s.localTs
  {
  }

  /** Over a run the reference keeps both times: no fraction of a nanosecond is lost of the
      one, and the other is ahead of the time stamps by a constant, but for the leap seconds
      that are applied; a jump of the clock moves both alike. */
  lemma {:induction false} RunKeepsTime(views: seq<View>, steps: seq<Step>, outs: seq<Option<Output>>)
    requires Running(views, steps, outs)
    ensures var v, w := views[0], views[|steps|];
            && w.reference.x as real + w.remainder == v.reference.x as real + v.remainder + Elapsed(views, steps)
            && w.reference.y - w.lastUpdate == v.reference.y - v.lastUpdate + Leapt(views, steps)
  {
    if steps != [] {
      var n := |steps| - 1;
      RunningBefore(views, steps, outs);
      RunKeepsTime(views[..n + 1], steps[..n], outs[..n]);
      assert Effect(views[n], steps[n], outs[n], views[n + 1]);
      if steps[n].TakeSample? {
        SampleKeepsTime(views[n], steps[n], outs[n], views[n + 1]);
      }
      hide WithoutCorrection, Running, Chained;
    }
  }

  /** Each sample of a run is stored as a point: when it was taken, by the clock without its
      corrections, to less than a nanosecond; and the time of the master then, which is the
      time stamp less the offset. */
  lemma PointsAreMeasured(views: seq<View>, steps: seq<Step>, outs: seq<Option<Output>>, k: nat)
    requires Running(views, steps, outs) && k < |steps| && steps[k].TakeSample?
    ensures var p, s := views[k + 1].history, steps[k];
            && p != [] && p[..|p| - 1] == views[k].history && p[|p| - 1].w == s.weight
            && -1.0 < p[|p| - 1].x as real - views[0].reference.x as real - views[0].remainder
                      - Elapsed(views[..k + 2], steps[..k + 1]) < 1.0
            && p[|p| - 1].y == s.localTs - s.offset + views[0].reference.y - views[0].lastUpdate + Leapt(views[..k + 1], steps[..k])
  {
    RunningPrefix(views, steps, outs, k);
    RunningPrefix(views, steps, outs, k + 1);
    RunKeepsTime(views[..k + 1], steps[..k], outs[..k]);
    RunKeepsTime(views[..k + 2], steps[..k + 1], outs[..k + 1]);
    assert Effect(views[k], steps[k], outs[k], views[k + 1]);
    SampleKeepsTime(views[k], steps[k], outs[k], views[k + 1]);
    hide Elapsed, Leapt, Running, Chained, Effect;
  }

  lemma {:induction false} RunningPrefix(views: seq<View>, steps: seq<Step>, outs: seq<Option<Output>>, k: nat)
    requires Running(views, steps, outs) && k <= |steps|
    ensures Running(views[..k + 1], steps[..k], outs[..k])
  {
    var vs, ss, os := views[..k + 1], steps[..k], outs[..k];
    forall i | 0 <= i < |ss| ensures Effect(vs[i], ss[i], os[i], vs[i + 1]) {
      assert Effect(views[i], steps[i], outs[i], views[i + 1]);
    }
    hide Effect;
  }
}
