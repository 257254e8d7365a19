/** The PI controller (pi.c), over the reals. */
module PiServo {
  import opened Servo

  /** firstUpdate is the field of the servo that servo_sample() clears. */
  datatype PiValue = PiValue(
    firstUpdate: bool, count: int, offset0: int, local0: int, drift: real, lastFreq: real, kp: real, ki: real)

  datatype Output = Output(freq: real, state: ServoState)

  /** How long to wait before the frequency is estimated. */
  function FreqEstInterval(ki: real): real
    requires ki >= 0.0
  {
    if ki == 0.0 || 0.016 / ki > 1000.0 then 1000.0 else 0.016 / ki
  }

  /** The drift, adjusted by a change of the offset over some time. */
  function Adjusted(drift: real, change: int, time: int): real
    requires time > 0
  {
    drift + (1000000000.0 - drift) * change as real / time as real
  }

  /** With the adjusted drift, the time that the offset was measured over would
      have passed on the local clock as it did on the master's, which is the local
      time less the change of the offset. */
  lemma AdjustedTracks(drift: real, change: int, time: int)
    requires time > 0
    ensures (1000000000.0 - Adjusted(drift, change, time)) * time as real == (1000000000.0 - drift) * (time - change) as real
  {
    var r, c, t := 1000000000.0 - drift, change as real, time as real;
    assert (r * c / t) * t == r * c;
    assert (r - r * c / t) * t == r * t - (r * c / t) * t;
    assert (time - change) as real == t - c;
    assert r * (t - c) == r * t - r * c;
  }

  function Term(gain: real, offset: int, weight: real): real {
    gain * offset as real * weight
  }

  /** The frequency within bounds; the integrator runs only while it is. */
  function Limited(cfg: ServoConfig, v: PiValue, ppb: real, kiTerm: real): (PiValue, Output) {
    if ppb < -cfg.maxFrequency then (v.(lastFreq := -cfg.maxFrequency), Output(-cfg.maxFrequency, LOCKED))
    else if ppb > cfg.maxFrequency then (v.(lastFreq := cfg.maxFrequency), Output(cfg.maxFrequency, LOCKED))
    else (v.(lastFreq := ppb, drift := v.drift + kiTerm), Output(ppb, LOCKED))
  }

  /** pi_sample() */
  function AfterSample(cfg: ServoConfig, v: PiValue, offset: int, local: int, weight: real): (PiValue, Output)
    requires WellFormed(cfg) && v.ki >= 0.0
  {
    if v.count == 0 then
      (v.(offset0 := offset, local0 := local, count := 1), Output(v.lastFreq, UNLOCKED))
    else if v.count == 1 then
      if v.local0 >= local then (v.(count := 0), Output(v.lastFreq, UNLOCKED))
      else
        var localdiff := (local - v.local0) as real / 1000000000.0;
        if localdiff + localdiff * 0.001 < FreqEstInterval(v.ki) then (v, Output(v.lastFreq, UNLOCKED))
        else
          var drift := Clamp(Adjusted(v.drift, offset - v.offset0, local - v.local0), cfg.maxFrequency);
          var state := if Steps(cfg, v.firstUpdate, offset as real) then JUMP else LOCKED;
          (v.(drift := drift, lastFreq := drift, count := 2), Output(drift, state))
    else if cfg.stepThreshold != 0.0 && cfg.stepThreshold < Abs(offset as real) then
      (v.(count := 0), Output(v.lastFreq, UNLOCKED))
    else
      var kiTerm := Term(v.ki, offset, weight);
      Limited(cfg, v, Term(v.kp, offset, weight) + v.drift + kiTerm, kiTerm)
  }

  /** servo_sample() */
  function ServoSample(cfg: ServoConfig, v: PiValue, offset: int, local: int, weight: real): (PiValue, Output)
    requires WellFormed(cfg) && v.ki >= 0.0
  {
    var (w, out) := AfterSample(cfg, v, offset, local, weight);
    (w.(firstUpdate := v.firstUpdate && out.state == UNLOCKED), out)
  }

  // ---------------------------------------------------------------------
  // The integrator stays bounded
  // ---------------------------------------------------------------------

  predicate Bounded(cfg: ServoConfig, v: PiValue) {
    -cfg.maxFrequency <= v.drift <= cfg.maxFrequency && -cfg.maxFrequency <= v.lastFreq <= cfg.maxFrequency
  }

  /** Both terms push the same way, so a drift between a bounded one and a
      bounded frequency is bounded. */
  lemma AntiWindup(max: real, drift: real, kpTerm: real, kiTerm: real)
    requires -max <= drift <= max && -max <= kpTerm + drift + kiTerm <= max
    requires (kpTerm >= 0.0 && kiTerm >= 0.0) || (kpTerm <= 0.0 && kiTerm <= 0.0)
    ensures -max <= drift + kiTerm <= max
  {
  }

  lemma TermSign(gain: real, offset: int, weight: real)
    requires gain >= 0.0 && weight >= 0.0
    ensures offset >= 0 ==> Term(gain, offset, weight) >= 0.0
    ensures offset <= 0 ==> Term(gain, offset, weight) <= 0.0
  {
    Sign(gain, offset as real);
    Sign(weight, gain * offset as real);
  }

  lemma Sign(a: real, b: real)
    requires a >= 0.0
    ensures (b >= 0.0 ==> a * b >= 0.0) && (b <= 0.0 ==> a * b <= 0.0)
  {
  }

  lemma SampleIsBounded(cfg: ServoConfig, v: PiValue, offset: int, local: int, weight: real)
    requires WellFormed(cfg) && v.kp >= 0.0 && v.ki >= 0.0 && weight >= 0.0 && 0 <= v.count <= 2
    requires v.count == 2 ==> Bounded(cfg, v)
    ensures var (w, out) := ServoSample(cfg, v, offset, local, weight);
            && 0 <= w.count <= 2
            && (w.count == 2 ==> Bounded(cfg, w))
            && (Bounded(cfg, v) || out.state != UNLOCKED ==> Bounded(cfg, w) && -cfg.maxFrequency <= out.freq <= cfg.maxFrequency)
  {
    if v.count == 2 {
      TermSign(v.kp, offset, weight);
      TermSign(v.ki, offset, weight);
      LimitedIsBounded(cfg, v, Term(v.kp, offset, weight), Term(v.ki, offset, weight));
    }
  }

  lemma LimitedIsBounded(cfg: ServoConfig, v: PiValue, kpTerm: real, kiTerm: real)
    requires WellFormed(cfg) && Bounded(cfg, v)
    requires (kpTerm >= 0.0 && kiTerm >= 0.0) || (kpTerm <= 0.0 && kiTerm <= 0.0)
    ensures var (w, out) := Limited(cfg, v, kpTerm + v.drift + kiTerm, kiTerm);
            Bounded(cfg, w) && -cfg.maxFrequency <= out.freq <= cfg.maxFrequency
  {
    if -cfg.maxFrequency <= kpTerm + v.drift + kiTerm <= cfg.maxFrequency {
      AntiWindup(cfg.maxFrequency, v.drift, kpTerm, kiTerm);
    }
  }

  // ---------------------------------------------------------------------
  // Runs
  // ---------------------------------------------------------------------

  /** A sample, pi_reset(), or pi_sync_interval() with the gains it computes. */
  datatype Step =
    | Sample(offset: int, local: int, weight: real)
    | Reset
    | SyncInterval(kp: real, ki: real)

  predicate ValidStep(s: Step) {
    match s
    case Sample(_, _, weight) => weight >= 0.0
    case Reset => true
    case SyncInterval(kp, ki) => kp >= 0.0 && ki >= 0.0
  }

  predicate ValidSteps(steps: seq<Step>) {
    forall i | 0 <= i < |steps| :: ValidStep(steps[i])
  }

  function Initial(fadj: real): PiValue {
    PiValue(true, 0, 0, 0, fadj, fadj, 0.0, 0.0)
  }

  /** The servo after a run, and the outputs of its samples. */
  function Run(cfg: ServoConfig, fadj: real, steps: seq<Step>): (r: (PiValue, seq<Output>))
    requires WellFormed(cfg) && ValidSteps(steps)
    ensures r.0.ki >= 0.0
  {
    if steps == [] then (Initial(fadj), [])
    else
      var (v, outs) := Run(cfg, fadj, steps[..|steps| - 1]);
      match steps[|steps| - 1]
      case Sample(offset, local, weight) =>
        var (w, out) := ServoSample(cfg, v, offset, local, weight);
        (w, outs + [out])
      case Reset => (v.(count := 0), outs)
      case SyncInterval(kp, ki) => (v.(kp := kp, ki := ki), outs)
  }

  ghost predicate RunInv(cfg: ServoConfig, v: PiValue, outs: seq<Output>) {
    && v.kp >= 0.0 && v.ki >= 0.0 && 0 <= v.count <= 2
    && (v.count == 2 ==> Bounded(cfg, v))
    && (v.firstUpdate <==> forall i | 0 <= i < |outs| :: outs[i].state == UNLOCKED)
    && (!v.firstUpdate ==> Bounded(cfg, v))
    && (forall i, j | 0 <= i <= j < |outs| && outs[i].state != UNLOCKED ::
          -cfg.maxFrequency <= outs[j].freq <= cfg.maxFrequency)
    && (cfg.stepThreshold == 0.0 ==>
          forall i, j | 0 <= i < j < |outs| && outs[i].state != UNLOCKED :: outs[j].state != JUMP)
  }

  lemma SampleKeepsInv(cfg: ServoConfig, v: PiValue, outs: seq<Output>, offset: int, local: int, weight: real)
    requires WellFormed(cfg) && RunInv(cfg, v, outs) && weight >= 0.0
    ensures var (w, out) := ServoSample(cfg, v, offset, local, weight); RunInv(cfg, w, outs + [out])
  {
    SampleIsBounded(cfg, v, offset, local, weight);
    var out := ServoSample(cfg, v, offset, local, weight).1;
    var after := outs + [out];
    assert after[|outs|] == out && forall i | 0 <= i < |outs| :: after[i] == outs[i];
    if forall i | 0 <= i < |after| :: after[i].state == UNLOCKED {
      assert forall i | 0 <= i < |outs| :: outs[i].state == UNLOCKED;
    }
  }

  /** From the first sample that is not UNLOCKED, over any run of samples,
      resets and changes of the gains, every frequency is within bounds; and
      without a step threshold no sample after it makes the clock jump. */
  lemma {:induction false} RunIsBounded(cfg: ServoConfig, fadj: real, steps: seq<Step>)
    requires WellFormed(cfg) && ValidSteps(steps)
    ensures var (v, outs) := Run(cfg, fadj, steps); RunInv(cfg, v, outs)
  {
    if steps != [] {
      var before, s := steps[..|steps| - 1], steps[|steps| - 1];
      RunIsBounded(cfg, fadj, before);
      var (v, outs) := Run(cfg, fadj, before);
      assert ValidStep(s);
      if s.Sample? {
        SampleKeepsInv(cfg, v, outs, s.offset, s.local, s.weight);
      }
    }
  }

  /** So without a step threshold the clock jumps at most once. */
  lemma JumpsOnce(cfg: ServoConfig, fadj: real, steps: seq<Step>, i: nat, j: nat)
    requires WellFormed(cfg) && ValidSteps(steps) && cfg.stepThreshold == 0.0
    requires i < |Run(cfg, fadj, steps).1| && j < |Run(cfg, fadj, steps).1|
    requires Run(cfg, fadj, steps).1[i].state == JUMP && Run(cfg, fadj, steps).1[j].state == JUMP
    ensures i == j
  {
    RunIsBounded(cfg, fadj, steps);
  }

  // ---------------------------------------------------------------------
  // The servo
  // ---------------------------------------------------------------------

  class Pi {
    const cfg: ServoConfig
    var firstUpdate: bool
    var offset0: int
    var local0: int
    var drift: real
    var kp: real
    var ki: real
    var lastFreq: real
    var count: int

    constructor (cfg: ServoConfig, fadj: real)
      ensures this.cfg == cfg && Value() == Initial(fadj)
    {
      this.cfg := cfg;
      firstUpdate, count := true, 0;
      offset0, local0 := 0, 0;
      drift, lastFreq, kp, ki := fadj, fadj, 0.0, 0.0;
    }

    function Value(): PiValue
      reads this
    {
      PiValue(firstUpdate, count, offset0, local0, drift, lastFreq, kp, ki)
    }

    method Sample(offset: int, local: int, weight: real) returns (freq: real, state: ServoState)
      requires WellFormed(cfg) && ki >= 0.0 && 0 <= count <= 2
      modifies this
      ensures (Value(), Output(freq, state)) == ServoSample(cfg, old(Value()), offset, local, weight)
    {
      freq, state := PiSample(offset, local, weight);
      if state != UNLOCKED {
        firstUpdate := false;
      }
    }

    method PiSample(offset: int, local: int, weight: real) returns (ppb: real, state: ServoState)
      requires WellFormed(cfg) && ki >= 0.0 && 0 <= count <= 2
      modifies this
      ensures (Value(), Output(ppb, state)) == AfterSample(cfg, old(Value()), offset, local, weight)
    {
      ppb, state := lastFreq, UNLOCKED;
      match count {
        case 0 =>
          offset0, local0 := offset, local;
          count := 1;
        case 1 =>
          ppb, state := Estimate(offset, local);
        case _ =>
          ppb, state := Control(offset, weight);
      }
      lastFreq := ppb;
    }

    method Estimate(offset: int, local: int) returns (ppb: real, state: ServoState)
      requires WellFormed(cfg) && ki >= 0.0 && count == 1
      modifies this`count, this`drift
      ensures var done := AfterSample(cfg, old(Value()), offset, local, 1.0);
              Value().(lastFreq := ppb) == done.0 && Output(ppb, state) == done.1
    {
      ppb, state := lastFreq, UNLOCKED;
      if local0 >= local {
        count := 0;
        return;
      }
      var localdiff := (local - local0) as real / 1000000000.0;
      localdiff := localdiff + localdiff * 0.001;
      var interval := FreqEstInterval(ki);
      if localdiff < interval {
        return;
      }
      drift := Adjusted(drift, offset - offset0, local - local0);
      if drift < -cfg.maxFrequency {
        drift := -cfg.maxFrequency;
      } else if drift > cfg.maxFrequency {
        drift := cfg.maxFrequency;
      }
      state := if Steps(cfg, firstUpdate, offset as real) then JUMP else LOCKED;
      ppb := drift;
      count := 2;
    }

    method Control(offset: int, weight: real) returns (ppb: real, state: ServoState)
      requires WellFormed(cfg) && ki >= 0.0 && count == 2
      modifies this`count, this`drift
      ensures var done := AfterSample(cfg, old(Value()), offset, 0, weight);
              Value().(lastFreq := ppb) == done.0 && Output(ppb, state) == done.1
    {
      if cfg.stepThreshold != 0.0 && cfg.stepThreshold < Abs(offset as real) {
        count := 0;
        return lastFreq, UNLOCKED;
      }
      var kiTerm := Term(ki, offset, weight);
      ppb, state := Limit(Term(kp, offset, weight) + drift + kiTerm, kiTerm);
    }

    method Limit(sum: real, kiTerm: real) returns (ppb: real, state: ServoState)
      modifies this`drift
      ensures var done := Limited(cfg, old(Value()), sum, kiTerm);
              Value().(lastFreq := ppb) == done.0 && Output(ppb, state) == done.1
    {
      ppb := sum;
      if ppb < -cfg.maxFrequency {
        ppb := -cfg.maxFrequency;
      } else if ppb > cfg.maxFrequency {
        ppb := cfg.maxFrequency;
      } else {
        drift := drift + kiTerm;
      }
      state := LOCKED;
    }

    method SyncInterval(kp: real, ki: real)
      modifies this`kp, this`ki
      ensures Value() == old(Value()).(kp := kp, ki := ki)
    {
      this.kp, this.ki := kp, ki;
    }

    method Reset()
      modifies this`count
      ensures Value() == old(Value()).(count := 0)
    {
      count := 0;
    }

    /** Any steps of a new servo. */
    method RunAll(ghost fadj: real, steps: seq<Step>) returns (outs: seq<Output>)
      requires WellFormed(cfg) && ValidSteps(steps) && Value() == Initial(fadj)
      modifies this
      ensures (Value(), outs) == Run(cfg, fadj, steps)
    {
      hide ServoSample, RunInv, ValidStep;
      outs := [];
      for i := 0 to |steps|
        invariant (Value(), outs) == Run(cfg, fadj, steps[..i])
      {
        assert steps[..i + 1][..i] == steps[..i];
        Ready(fadj, steps[..i]);
        match steps[i]
        case Sample(offset, local, weight) =>
          var freq, state := Sample(offset, local, weight);
          outs := outs + [Output(freq, state)];
        case Reset => Reset();
        case SyncInterval(kp, ki) => SyncInterval(kp, ki);
      }
      assert steps[..|steps|] == steps;
    }

    lemma Ready(fadj: real, steps: seq<Step>)
      requires WellFormed(cfg) && ValidSteps(steps)
      ensures var v := Run(cfg, fadj, steps).0; v.ki >= 0.0 && 0 <= v.count <= 2
    {
      RunIsBounded(cfg, fadj, steps);
    }
  }
}
