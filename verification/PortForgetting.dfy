/** When a port has forgotten what it knew. */
module PortForgetting {
  import opened CArith
  import opened RealArith
  import opened Octets
  import opened DataSets
  import opened Bmc
  import opened Fsm
  import opened ForeignMasters
  import opened PortBmc
  import opened PortTheory
  import opened PortListening
  import opened ClockBmc
  import opened ClockTheory

  ghost predicate Expired(m: Announce, t: int) {
    forall now | now >= t :: !Current(m, now)
  }

  lemma ExpiredLater(m: Announce, t: int, u: int)
    requires Expired(m, t) && t <= u
    ensures Expired(m, u)
  {
  }

  ghost predicate RecordExpires(r: Record, t: int) {
    forall m | m in r.messages :: Expired(m, t)
  }

  /** Whatever the port knows it will have forgotten by then. */
  ghost predicate Expires(p: PortValue, t: int) {
    forall r | r in p.records :: RecordExpires(r, t)
  }

  lemma FewerExpire(r: Record, s: Record, t: int)
    requires RecordExpires(r, t) && s.messages <= r.messages
    ensures RecordExpires(s, t)
  {
    hide Expired;
    forall m | m in s.messages ensures Expired(m, t) {
      var k :| 0 <= k < |s.messages| && s.messages[k] == m;
      assert r.messages[k] == m;
    }
  }

  lemma StoredExpires(r: Record, m: Announce, now: int, t: int)
    requires RecordExpires(r, t) && Expired(m, t)
    ensures RecordExpires(Stored(r, m, now), t)
  {
    hide Expired;
    FewerExpire(r, r.(messages := Pruned(r.messages, now)), t);
  }

  lemma AnnounceExpires(p: PortValue, m: Announce, now: int, t: int)
    requires Expires(p, t) && Expired(m, t)
    ensures Expires(WithAnnounce(p, m, now).0, t)
  {
    hide Stored, RecordExpires, NewsTo, Pruned;
    if m.stepsRemoved < 255 && Enabled(p.state) {
      AnnounceIsStored(p, m, now);
      NewExpires(m, t);
      var i := Find(p.records, m.source);
      if i < |p.records| {
        StoredExpires(p.records[i], m, now, t);
      }
    }
  }

  lemma NewExpires(m: Announce, t: int)
    ensures RecordExpires(Fresh(m), t)
  {
  }

  lemma ClearedExpires(p: PortValue, t: int)
    requires Expires(p, t)
    ensures Expires(WithClearedBest(p), t)
  {
  }

  lemma DispatchedExpires(cfg: PortConfig, p: PortValue, event: Event, mdiff: bool, initOk: bool, t: int)
    requires Expires(p, t)
    ensures Expires(Dispatched(cfg, p, event, mdiff, initOk), t)
  {
    hide NextState, Initialized;
  }

  lemma BestExpires(cfg: PortConfig, p: PortValue, now: int, t: int)
    requires Expires(p, t)
    ensures Expires(WithBest(cfg, p, now), t)
  {
    hide Scan, RecordExpires;
    var q := WithBest(cfg, p, now);
    forall r | r in q.records ensures RecordExpires(r, t) {
      var k :| 0 <= k < |q.records| && q.records[k] == r;
      if !cfg.masterOnly {
        ScanKeepsRecords(cfg, p.records, now, k);
        FewerExpire(p.records[k], r, t);
      }
    }
  }

  lemma PortStepExpires(cfg: PortConfig, p: PortValue, s: Step, t: int)
    requires Expires(p, t) && (s.Receive? ==> Expired(s.m, t))
    ensures Expires(PortApply(cfg, p, s), t)
  {
    hide WithAnnounce, WithClearedBest, Dispatched, Expires, Expired;
    match s
    case Receive(_, m, now, initOk) =>
      AnnounceExpires(p, m, now, t);
      DispatchedExpires(cfg, WithAnnounce(p, m, now).0, if WithAnnounce(p, m, now).1 then STATE_DECISION_EVENT else NONE, false, initOk, t);
    case AnnounceTimeout(_, renewFails, initOk) =>
      ClearedExpires(p, t);
      var q := WithClearedBest(p);
      DispatchedExpires(cfg, q, TimeoutEvent(cfg, q.state, renewFails), false, initOk, t);
    case PortEvent(_, event, initOk) => DispatchedExpires(cfg, p, event, false, initOk, t);
    case Decide(_, _) =>
  }

  ghost predicate ClockExpires(c: ClockValue, t: int) {
    forall i | 0 <= i < |c.ports| :: Expires(c.ports[i], t)
  }

  lemma DecisionExpires(cfg: ClockConfig, c: ClockValue, now: int, initOks: seq<bool>, t: int)
    requires WellFormed(cfg) && ClockInv(cfg, c) && ClockExpires(c, t) && |initOks| == |c.ports|
    ensures ClockExpires(Decision(cfg, c, now, initOks), t)
  {
    hide Expires, PortInv, DecidedUpTo, SteadyBest, WellFormed, Anchored;
    var d := Chosen(cfg, c, now);
    ChosenFacts(cfg, c, now);
    Turns(cfg, d, |d.ports|, d.bestId != c.bestId, initOks);
    var e := Decision(cfg, c, now, initOks);
    forall i | 0 <= i < |e.ports| ensures Expires(e.ports[i], t) {
      BestExpires(cfg.ports[i], c.ports[i], now, t);
      SameExpires(d.ports[i], e.ports[i], t);
    }
  }

  lemma SameExpires(p: PortValue, q: PortValue, t: int)
    requires Expires(p, t) && p.records == q.records
    ensures Expires(q, t)
  {
  }

  lemma StepExpires(cfg: ClockConfig, c: ClockValue, s: Step, t: int)
    requires WellFormed(cfg) && ClockInv(cfg, c) && ClockExpires(c, t) && (s.Receive? ==> Expired(s.m, t))
    ensures ClockExpires(Apply(cfg, c, s), t)
  {
    hide Expires, Decision, PortInv, PortApply, WellFormed, Expired, Anchored, SingleSlave, WithAnnounce, WithClearedBest, Dispatched;
    match s
    case Decide(now, initOks) =>
      if |initOks| == |c.ports| {
        DecisionExpires(cfg, c, now, initOks, t);
      }
    case _ =>
      if s.port < |c.ports| {
        ApplyIsLocal(cfg, c, s.port, s);
        PortStepExpires(cfg.ports[s.port], c.ports[s.port], s, t);
      }
  }

  lemma {:induction false} RunExpires(cfg: ClockConfig, c: ClockValue, steps: seq<Step>, t: int)
    requires WellFormed(cfg) && ClockInv(cfg, c) && ClockExpires(c, t)
    requires forall s | s in steps && s.Receive? :: Expired(s.m, t)
    ensures ClockExpires(RunFrom(cfg, c, steps), t)
  {
    hide Expired, Apply, ClockExpires, PortInv, SingleSlave, Anchored, WellFormed;
    if steps != [] {
      var before := steps[..|steps| - 1];
      RunExpires(cfg, c, before, t);
      RunFromKeepsInv(cfg, c, before);
      StepExpires(cfg, RunFrom(cfg, c, before), steps[|steps| - 1], t);
    }
  }

  lemma ExpiresLater(c: ClockValue, t: int, u: int)
    requires ClockExpires(c, t) && t <= u
    ensures ClockExpires(c, u)
  {
  }

  lemma QualifiedHasCurrent(r: Record, now: int) returns (m: Announce)
    requires Qualified(r, now)
    ensures m in r.messages && Current(m, now)
  {
    var ms := Pruned(r.messages, now);
    m := ms[|ms| - 1];
    assert r.messages[|ms| - 1] == m;
  }

  lemma ExpiredIsUnqualified(r: Record, now: int)
    requires RecordExpires(r, now)
    ensures !Qualified(r, now)
  {
    hide Qualified;
    if Qualified(r, now) {
      var m := QualifiedHasCurrent(r, now);
    }
  }

  /** A port that has forgotten whom it knew has outlived it. */
  lemma ExpiryOutlives(cfg: PortConfig, p: PortValue, heard: Option<Dataset>, now: int)
    requires Expires(p, now)
    ensures Outlived(cfg, p, heard, now)
  {
    hide RecordExpires, Qualified;
    forall r | r in p.records ensures !Qualified(r, now) {
      ExpiredIsUnqualified(r, now);
    }
  }

  /** The seconds between messages whose interval has the logarithm k. */
  ghost function Interval(k: int): (r: real)
    ensures r > 0.0
    decreases if k < 0 then -k else k
  {
    if k == 0 then 1.0 else if k > 0 then 2.0 * Interval(k - 1) else Interval(k + 1) / 2.0
  }

  lemma {:induction false} IntervalIsPower(k: int)
    requires k >= 0
    ensures Interval(k) == Pow2(k) as real && Times(Interval(-k), Pow2(k) as real) == 1.0
  {
    if k > 0 {
      IntervalIsPower(k - 1);
      HalfTwice(Interval(-k), Pow2(k - 1) as real);
    }
  }

  lemma HalfTwice(x: real, y: real)
    ensures Times(x, 2.0 * y) == Times(2.0 * x, y)
  {
  }

  lemma {:induction false} ShorterInterval(k: int, j: int)
    requires 0 <= j <= k
    ensures Interval(-k) <= Interval(-j)
  {
    if j < k {
      ShorterInterval(k - 1, j);
    }
  }

  lemma Parts(f: real, q: real, r: real, x: real)
    requires Times(x, q) == 1.0
    ensures Times(f * q + r, x) == f + Times(r, x)
  {
    calc {
      Times(f * q + r, x);
      f * (x * q) + r * x;
    }
  }

  lemma SmallPart(r: real, q: real, x: real)
    requires 0.0 <= r < q && x > 0.0 && Times(x, q) == 1.0
    ensures 0.0 <= Times(r, x) < 1.0
  {
    assert Times(q - r, x) > 0.0;
  }

  /** The quotient is rounded down. */
  lemma BelowQuotient(age: int, a: nat, q: int, x: real)
    requires q > 0 && x > 0.0 && Times(x, q as real) == 1.0
    ensures age < a / q <==> age as real + 1.0 <= Times(a as real, x)
  {
    var f, r := a / q, a % q;
    Parts(f as real, q as real, r as real, x);
    SmallPart(r as real, q as real, x);
    hide Times;
    assert a == f * q + r;
    assert a as real == f as real * q as real + r as real;
  }

  lemma {:induction false} PowAdds(a: nat, b: nat)
    ensures Pow2(a + b) == Pow2(a) * Pow2(b)
  {
    if a > 0 {
      PowAdds(a - 1, b);
    }
  }

  lemma LargePower()
    ensures Pow2(32) == 0x1_0000_0000
  {
    assert Pow2(2) == 4;
    PowAdds(2, 2);
    PowAdds(4, 4);
    PowAdds(8, 8);
    PowAdds(16, 16);
  }

  lemma TinyInterval(k: int)
    requires k >= 0 && Pow2(k) > 4_000_000_000
    ensures 4_000_000_000.0 * Interval(-k) < 1.0
  {
    IntervalIsPower(k);
    SmallPart(4_000_000_000.0, Pow2(k) as real, Interval(-k));
  }

  /** An Announce is current while four of its intervals have not passed, rounded
      down to nanoseconds; with a claim of 2^32 seconds or more it always is. */
  lemma CurrentExactly(m: Announce, now: int)
    ensures Current(m, now) <==>
              || m.logMessageInterval > 31
              || (now - m.host) as real + 1.0 <= 4_000_000_000.0 * Interval(m.logMessageInterval)
  {
    var age, k := now - m.host, m.logMessageInterval;
    if k < -63 {
      LargePower();
      hide Interval, Pow2;
      ShorterInterval(-k, 32);
      TinyInterval(32);
    } else if k < 0 {
      IntervalIsPower(-k);
      BelowQuotient(age, 4 * NSEC2SEC, Pow2(-k), Interval(k));
      hide Interval, Pow2;
    } else if k <= 31 {
      IntervalIsPower(k);
    }
  }

  lemma EverySecond(m: Announce)
    requires m.logMessageInterval == 0
    ensures Expired(m, m.host + LIFETIME)
  {
    assert Pow2(0) == 1;
  }

  /** An Announce that is sent once a second is current for four. */
  const LIFETIME := 4 * NSEC2SEC

  /** An Announce expires unless its sender claims an interval of 2^32 seconds or more. */
  lemma ExpiresExactly(m: Announce)
    ensures (exists t :: Expired(m, t)) <==> m.logMessageInterval <= 31
  {
    var k := m.logMessageInterval;
    if k > 31 {
      forall t ensures !Expired(m, t) {
        assert Current(m, t);
      }
    } else {
      var span := if k < -63 then 0 else if k < 0 then 4 * NSEC2SEC / Pow2(-k) else 4 * Pow2(k) * NSEC2SEC;
      assert Expired(m, m.host + span);
    }
  }
}
