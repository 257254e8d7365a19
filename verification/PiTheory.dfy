/** The control law of the PI servo, in terms of the offsets and weights it is given. */
module PiTheory {
  import opened RealArith
  import opened Servo
  import opened PiServo

  /** One offset, when it was measured and what it counts for. */
  datatype Measurement = Measurement(offset: int, local: int, weight: real)

  function Weighted(m: Measurement): real {
    Times(m.offset as real, m.weight)
  }

  /** The sum of the offsets, each by its weight. */
  function Integral(ms: seq<Measurement>): real {
    if ms == [] then 0.0
    else Integral(ms[..|ms| - 1]) + Weighted(ms[|ms| - 1])
  }

  /** The servo after some measurements. */
  function After(cfg: ServoConfig, v: PiValue, ms: seq<Measurement>): (w: PiValue)
    requires WellFormed(cfg) && v.ki >= 0.0
    ensures w.ki == v.ki && w.kp == v.kp
  {
    if ms == [] then v
    else
      var m := ms[|ms| - 1];
      ServoSample(cfg, After(cfg, v, ms[..|ms| - 1]), m.offset, m.local, m.weight).0
  }

  /** What a proportional and an integrating part ask for after all of ms. */
  function Wanted(v: PiValue, ms: seq<Measurement>): real
    requires ms != []
  {
    Times(v.kp, Weighted(ms[|ms| - 1])) + (v.drift + Times(v.ki, Integral(ms)))
  }

  predicate Tolerated(cfg: ServoConfig, m: Measurement) {
    cfg.stepThreshold == 0.0 || -cfg.stepThreshold <= m.offset as real <= cfg.stepThreshold
  }

  /** The k-th measurement is not too large, and what is asked for then is within bounds. */
  predicate InRangeAt(cfg: ServoConfig, v: PiValue, ms: seq<Measurement>, k: nat) {
    0 < k <= |ms| && Tolerated(cfg, ms[k - 1]) && -cfg.maxFrequency <= Wanted(v, ms[..k]) <= cfg.maxFrequency
  }

  ghost predicate InRange(cfg: ServoConfig, v: PiValue, ms: seq<Measurement>) {
    forall k: nat | 0 < k <= |ms| :: InRangeAt(cfg, v, ms, k)
  }

  lemma TermIs(gain: real, m: Measurement)
    ensures Term(gain, m.offset, m.weight) == Times(gain, Weighted(m))
  {
    Thrice(gain, m.offset as real, m.weight);
  }

  lemma Thrice(a: real, b: real, c: real)
    ensures a * b * c == a * (b * c)
  {
  }

  /** One measurement at count 2 that is neither too large nor asks for too much. */
  lemma OneInRange(cfg: ServoConfig, v: PiValue, m: Measurement)
    requires WellFormed(cfg) && v.ki >= 0.0 && v.count == 2 && Tolerated(cfg, m)
    requires var e := Weighted(m);
             -cfg.maxFrequency <= Times(v.kp, e) + (v.drift + Times(v.ki, e)) <= cfg.maxFrequency
    ensures var e := Weighted(m);
            var (w, out) := ServoSample(cfg, v, m.offset, m.local, m.weight);
            && w.count == 2 && out.state == LOCKED && w.drift == v.drift + Times(v.ki, e)
            && out.freq == w.lastFreq == Times(v.kp, e) + w.drift
  {
    hide Term, Times, Weighted;
    TermIs(v.ki, m);
    TermIs(v.kp, m);
  }

  /** Over any run of measurements within range the drift has grown by ki times the
      weighted sum of all offsets, and the frequency is that plus kp times the last. */
  lemma {:induction false} ControlLaw(cfg: ServoConfig, v: PiValue, ms: seq<Measurement>)
    requires WellFormed(cfg) && v.ki >= 0.0 && v.count == 2 && InRange(cfg, v, ms)
    ensures var w := After(cfg, v, ms);
            && w.count == 2 && w.drift == v.drift + Times(v.ki, Integral(ms))
            && (ms != [] ==> w.lastFreq == Times(v.kp, Weighted(ms[|ms| - 1])) + (v.drift + Times(v.ki, Integral(ms))))
  {
    hide ServoSample, Times, Weighted;
    if ms == [] {
      ZeroTimes(v.ki);
    } else {
      InRangeBefore(cfg, v, ms);
      ControlLaw(cfg, v, ms[..|ms| - 1]);
      OneMoreInRange(cfg, v, After(cfg, v, ms[..|ms| - 1]), ms);
    }
  }

  lemma OneMoreInRange(cfg: ServoConfig, v: PiValue, before: PiValue, ms: seq<Measurement>)
    requires WellFormed(cfg) && v.ki >= 0.0 && ms != [] && InRange(cfg, v, ms)
    requires before.count == 2 && before.ki == v.ki && before.kp == v.kp
    requires before.drift == v.drift + Times(v.ki, Integral(ms[..|ms| - 1]))
    ensures var m := ms[|ms| - 1];
            var w := ServoSample(cfg, before, m.offset, m.local, m.weight).0;
            w.count == 2 && w.drift == v.drift + Times(v.ki, Integral(ms)) && w.lastFreq == Wanted(v, ms)
  {
    hide *;
    LastInRange(cfg, v, ms);
    WantedIs(v, ms);
    TimesAdds(v.ki, Integral(ms[..|ms| - 1]), Weighted(ms[|ms| - 1]));
    OneInRange(cfg, before, ms[|ms| - 1]);
  }

  lemma LastInRange(cfg: ServoConfig, v: PiValue, ms: seq<Measurement>)
    requires InRange(cfg, v, ms) && ms != []
    ensures Tolerated(cfg, ms[|ms| - 1]) && -cfg.maxFrequency <= Wanted(v, ms) <= cfg.maxFrequency
  {
    hide Wanted, Tolerated;
    assert InRangeAt(cfg, v, ms, |ms|) && ms[..|ms|] == ms;
  }

  lemma WantedIs(v: PiValue, ms: seq<Measurement>)
    requires ms != []
    ensures Integral(ms) == Integral(ms[..|ms| - 1]) + Weighted(ms[|ms| - 1])
    ensures Wanted(v, ms) == Times(v.kp, Weighted(ms[|ms| - 1])) + (v.drift + Times(v.ki, Integral(ms)))
  {
    hide Times, Weighted;
  }

  lemma InRangeBefore(cfg: ServoConfig, v: PiValue, ms: seq<Measurement>)
    requires InRange(cfg, v, ms) && ms != []
    ensures InRange(cfg, v, ms[..|ms| - 1])
  {
    hide Wanted, Tolerated;
    var before := ms[..|ms| - 1];
    forall k: nat | 0 < k <= |before| ensures InRangeAt(cfg, v, before, k) {
      assert InRangeAt(cfg, v, ms, k) && before[..k] == ms[..k] && before[k - 1] == ms[k - 1];
    }
  }

  /** Where more is asked for than is allowed the frequency is at its bound, on the side
      of the offset, and the drift stays. */
  lemma Saturates(cfg: ServoConfig, v: PiValue, m: Measurement)
    requires WellFormed(cfg) && v.ki >= 0.0 && v.kp >= 0.0 && m.weight >= 0.0 && v.count == 2 && Bounded(cfg, v) && Tolerated(cfg, m)
    requires var e := Weighted(m);
             !(-cfg.maxFrequency <= Times(v.kp, e) + (v.drift + Times(v.ki, e)) <= cfg.maxFrequency)
    ensures var (w, out) := ServoSample(cfg, v, m.offset, m.local, m.weight);
            && w.count == 2 && out.state == LOCKED && w.drift == v.drift && w.lastFreq == out.freq && m.offset != 0
            && out.freq == if m.offset > 0 then cfg.maxFrequency else -cfg.maxFrequency
  {
    hide Term, Times, Weighted;
    TermIs(v.ki, m);
    TermIs(v.kp, m);
    TermSign(v.ki, m.offset, m.weight);
    TermSign(v.kp, m.offset, m.weight);
  }

  /** A measurement that is too large starts the estimate anew, and gives the frequency
      that was set before. */
  lemma StartsAgain(cfg: ServoConfig, v: PiValue, m: Measurement)
    requires WellFormed(cfg) && v.ki >= 0.0 && v.count == 2 && !Tolerated(cfg, m)
    ensures ServoSample(cfg, v, m.offset, m.local, m.weight) == (v.(count := 0), Output(v.lastFreq, UNLOCKED))
  {
  }

  /** The first measurement is remembered. */
  lemma Remembers(cfg: ServoConfig, v: PiValue, m: Measurement)
    requires WellFormed(cfg) && v.ki >= 0.0 && v.count == 0
    ensures ServoSample(cfg, v, m.offset, m.local, m.weight)
         == (v.(offset0 := m.offset, local0 := m.local, count := 1), Output(v.lastFreq, UNLOCKED))
  {
  }

  /** Before a sample the servo only has its gains set, and leaves the frequency as it is. */
  lemma FirstOfRun(cfg: ServoConfig, fadj: real, kp: real, ki: real, m: Measurement)
    requires WellFormed(cfg) && kp >= 0.0 && ki >= 0.0 && m.weight >= 0.0
    ensures var steps := [SyncInterval(kp, ki), Sample(m.offset, m.local, m.weight)];
            && ValidSteps(steps)
            && Run(cfg, fadj, steps) == (PiValue(true, 1, m.offset, m.local, fadj, fadj, kp, ki), [Output(fadj, UNLOCKED)])
  {
    var steps := [SyncInterval(kp, ki), Sample(m.offset, m.local, m.weight)];
    assert steps[..1] == [SyncInterval(kp, ki)] && steps[..1][..0] == [];
    assert ValidSteps(steps[..1]) && ValidSteps(steps[..1][..0]);
    assert Run(cfg, fadj, steps[..1]) == (Initial(fadj).(kp := kp, ki := ki), []);
    Remembers(cfg, Initial(fadj).(kp := kp, ki := ki), m);
    assert [] + [Output(fadj, UNLOCKED)] == [Output(fadj, UNLOCKED)];
  }

  /** After a reset, at any time, the next measurement is remembered as the first one of a
      new estimate, while the frequency and the drift stay. */
  lemma ResetStartsAgain(cfg: ServoConfig, fadj: real, steps: seq<Step>, m: Measurement)
    requires WellFormed(cfg) && ValidSteps(steps) && m.weight >= 0.0
    ensures var more := steps + [Reset, Sample(m.offset, m.local, m.weight)];
            && ValidSteps(more)
            && var (v, outs) := Run(cfg, fadj, steps);
               Run(cfg, fadj, more)
               == (v.(offset0 := m.offset, local0 := m.local, count := 1), outs + [Output(v.lastFreq, UNLOCKED)])
  {
    var (v, outs) := Run(cfg, fadj, steps);
    var n := |steps|;
    var more := steps + [Reset, Sample(m.offset, m.local, m.weight)];
    assert forall i | 0 <= i < |more| :: ValidStep(more[i]);
    assert more[..n + 1][..n] == steps && more[..n + 1][n] == Reset;
    assert Run(cfg, fadj, more[..n + 1]) == (v.(count := 0), outs);
    Remembers(cfg, v.(count := 0), m);
  }

  /** How long the frequency is estimated: until sixteen milliseconds divided by ki have
      passed, or a thousand seconds, both less a thousandth. */
  predicate LongEnough(passed: int, ki: real) {
    var margin := passed as real * 1.001;
    margin * ki >= 0.016 * 1000000000.0 || margin >= 1000.0 * 1000000000.0
  }

  lemma IntervalIs(ki: real, passed: int)
    requires ki >= 0.0 && passed > 0
    ensures var d := passed as real / 1000000000.0; d + d * 0.001 >= FreqEstInterval(ki) <==> LongEnough(passed, ki)
  {
    var p := passed as real;
    var d := p / 1000000000.0;
    var margin := d + d * 0.001;
    assert margin * 1000000000.0 == p * 1.001;
    if ki > 0.0 {
      Divided(0.016, ki, margin);
      Divided(0.016, ki, 1000.0);
      ScaledBoth(margin, p * 1.001, ki);
      if margin * ki >= 0.016 && margin < 1000.0 {
        Shorter(margin, ki);
      }
    } else {
      assert p * 1.001 * ki == 0.0;
    }
  }

  lemma Shorter(margin: real, ki: real)
    requires ki > 0.0 && margin * ki >= 0.016 && margin < 1000.0
    ensures 0.016 / ki <= 1000.0
  {
    Divided(0.016, ki, margin);
  }

  lemma ScaledBoth(margin: real, m: real, ki: real)
    requires margin * 1000000000.0 == m
    ensures m * ki == (margin * ki) * 1000000000.0
  {
  }

  /** Comparing with a quotient. */
  lemma Divided(a: real, b: real, x: real)
    requires b > 0.0
    ensures x >= a / b <==> x * b >= a
  {
    assert a / b * b == a;
    if x >= a / b {
      assert x * b >= a / b * b;
    } else {
      assert x * b < a / b * b;
    }
  }

  /** The second measurement: exactly when the frequency is estimated, from what, and
      whether the clock is stepped. */
  lemma EstimatesExactly(cfg: ServoConfig, v: PiValue, m: Measurement)
    requires WellFormed(cfg) && v.ki >= 0.0 && v.count == 1
    ensures var (w, out) := ServoSample(cfg, v, m.offset, m.local, m.weight);
            if m.local <= v.local0 then w == v.(count := 0) && out == Output(v.lastFreq, UNLOCKED)
            else if !LongEnough(m.local - v.local0, v.ki) then w == v && out == Output(v.lastFreq, UNLOCKED)
            else
              && w.count == 2 && !w.firstUpdate && w.lastFreq == w.drift == out.freq
              && Nearest(Adjusted(v.drift, m.offset - v.offset0, m.local - v.local0), cfg.maxFrequency, out.freq)
              && (out.state == JUMP <==> TooLarge(cfg, v.firstUpdate, m.offset as real)) && out.state != UNLOCKED
  {
    if m.local > v.local0 {
      IntervalIs(v.ki, m.local - v.local0);
    }
  }
}
