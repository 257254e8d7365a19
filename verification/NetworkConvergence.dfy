/** Rounds, in which all clocks decide and then every port comes to know what leaves
    its far end, make every network quiescent, from any state and within a number of
    rounds that does not depend on it.  NetworkProgress shows which steps of the clocks
    make a round. */
module NetworkConvergence {
  import opened Octets
  import opened DataSets
  import opened Bmc
  import opened Fsm
  import opened ForeignMasters
  import opened PortBmc
  import opened PortTheory
  import opened ClockBmc
  import opened ClockTheory
  import opened Network
  import opened NetworkTheory
  import opened NetworkStages
  import opened NetworkSettling

  // ---------------------------------------------------------------------
  // One round
  // ---------------------------------------------------------------------

  /** A decision, after which the qualification timers expire. */
  function AfterDecision(cfg: ClockConfig, c: ClockValue, now: int): (e: ClockValue)
    requires |c.ports| == |cfg.ports|
    ensures |e.ports| == |c.ports|
  {
    AfterTimers(Decision(cfg, c, now, AllOk(|c.ports|)))
  }

  function AfterTimers(e: ClockValue): (f: ClockValue)
    ensures |f.ports| == |e.ports|
  {
    e.(ports := seq(|e.ports|, p requires 0 <= p < |e.ports| =>
         e.ports[p].(state := PtpFsm(e.ports[p].state, QUALIFICATION_TIMEOUT_EXPIRES, false))))
  }

  function AllDecide(net: Net, now: int): (d: Net)
    requires Topology(net)
    ensures |d| == |net|
  {
    seq(|net|, n requires 0 <= n < |net| => net[n].(clock := AfterDecision(net[n].cfg, net[n].clock, now)))
  }

  /** What becomes of a port's state while it listens: if it hears nothing that
      qualifies, its announce receipt timer expires; a port that synchronizes may
      become or cease to be a SLAVE. */
  predicate Waited(before: PortState, after: PortState, best: Option<Dataset>) {
    var s := if best.None? then PtpFsm(before, ANNOUNCE_RECEIPT_TIMEOUT_EXPIRES, false) else before;
    after == s || (Synchronizing(after) && Synchronizing(s))
  }

  /** The clocks of d have listened long enough to know what leaves their far ends. */
  ghost predicate Listened(d: Net, net: Net, now: int) {
    && Topology(net) && SameTopology(d, net)
    && (forall n | 0 <= n < |d| ::
          && net[n].transparent == d[n].transparent
          && net[n].clock.dad == d[n].clock.dad && net[n].clock.stepsRemoved == d[n].clock.stepsRemoved
          && net[n].clock.bestId == d[n].clock.bestId)
    && (forall n: nat, p: nat | IsPort(d, n, p) :: ListenedAt(d, net, now, n, p))
  }

  ghost predicate ListenedAt(d: Net, net: Net, now: int, n: nat, p: nat)
    requires Topology(net) && SameTopology(d, net) && IsPort(d, n, p)
  {
    && Informed(d, now, n, p, Bests(net, n, now)[p])
    && Waited(State(d, n, p), State(net, n, p), Bests(net, n, now)[p])
  }

  /** All clocks decide, then all Announces are heard. */
  ghost predicate Round(a: Net, nowA: int, b: Net, nowB: int) {
    Topology(a) && Listened(AllDecide(a, nowA), b, nowB)
  }

  /** Boundary clocks whose ports all work. */
  ghost predicate Ready(net: Net) {
    && Topology(net)
    && (forall n | 0 <= n < |net| :: !net[n].transparent)
    && (forall n: nat, p: nat | IsPort(net, n, p) :: Enabled(State(net, n, p)))
  }

  /** No port is still waiting for a first Announce. */
  ghost predicate Awake(net: Net, now: int) {
    && Ready(net)
    && (forall n: nat, p: nat | IsPort(net, n, p) && Bests(net, n, now)[p].None? :: State(net, n, p) != LISTENING)
  }

  // ---------------------------------------------------------------------
  // One decision
  // ---------------------------------------------------------------------

  function Turned(s: PortState, rec: PortState, mdiff: bool): PortState {
    PtpFsm(PtpFsm(s, EventOf(rec), mdiff), QUALIFICATION_TIMEOUT_EXPIRES, false)
  }

  /** A port does as it was told once its qualification timer has expired. */
  lemma TurnedFollows(s: PortState, rec: PortState, mdiff: bool)
    requires Enabled(s) && Recommendable(rec)
    ensures var t := Turned(s, rec, mdiff);
            && Enabled(t)
            && (rec != LISTENING ==>
                  && (Transmitting(t) <==> rec == GRAND_MASTER || rec == MASTER)
                  && (Synchronizing(t) <==> rec == SLAVE)
                  && (t == PASSIVE <==> rec == PASSIVE)
                  && t != LISTENING)
  {
  }

  /** The states in which a recommendation leaves a port. */
  predicate Kept(rec: PortState, t: PortState) {
    match rec
    case GRAND_MASTER | MASTER => t == MASTER || t == GRAND_MASTER
    case SLAVE => Synchronizing(t)
    case _ => t == rec
  }

  lemma TurnedKept(s: PortState, rec: PortState, mdiff: bool)
    requires Enabled(s) && Recommendable(rec) && rec != LISTENING
    ensures Kept(rec, Turned(s, rec, mdiff))
  {
  }

  lemma WaitedKept(rec: PortState, s: PortState, t: PortState, best: Option<Dataset>)
    requires Recommendable(rec) && rec != LISTENING && Kept(rec, s) && Waited(s, t, best)
    requires best.None? ==> rec == GRAND_MASTER || rec == MASTER
    ensures Kept(rec, t)
  {
  }

  lemma KeptStays(rec: PortState, t: PortState)
    requires Recommendable(rec) && rec != LISTENING && Kept(rec, t)
    ensures PtpFsm(t, EventOf(rec), false) == t && Enabled(t)
    ensures PtpFsm(t, QUALIFICATION_TIMEOUT_EXPIRES, false) == t
    ensures rec == GRAND_MASTER || rec == MASTER ==> PtpFsm(t, ANNOUNCE_RECEIPT_TIMEOUT_EXPIRES, false) == t
  {
  }

  /** Told the same once more it stays as it is, and no timer changes it. */
  lemma TurnedStays(s: PortState, rec: PortState, mdiff: bool, t: PortState, best: Option<Dataset>)
    requires Enabled(s) && Recommendable(rec) && rec != LISTENING
    requires best.None? ==> rec == GRAND_MASTER || rec == MASTER
    requires Waited(Turned(s, rec, mdiff), t, best)
    ensures PtpFsm(t, EventOf(rec), false) == t && Enabled(t)
    ensures PtpFsm(t, QUALIFICATION_TIMEOUT_EXPIRES, false) == t
    ensures best.None? ==> PtpFsm(t, ANNOUNCE_RECEIPT_TIMEOUT_EXPIRES, false) == t
  {
    hide PtpFsm, Turned, Waited, Kept;
    TurnedKept(s, rec, mdiff);
    WaitedKept(rec, Turned(s, rec, mdiff), t, best);
    KeptStays(rec, t);
  }

  lemma WaitedIsAwake(s: PortState, t: PortState, best: Option<Dataset>)
    requires Enabled(s) && Waited(s, t, best)
    ensures Enabled(t) && (best.None? ==> t != LISTENING)
  {
  }

  /** What a decision makes of clock n. */
  lemma Decides(net: Net, now: int, n: nat) returns (d: ClockValue, e: ClockValue)
    requires Topology(net) && n < |net|
    ensures var cfg, c := net[n].cfg, net[n].clock;
            && d == Chosen(cfg, c, now) && DecisionReady(cfg, d)
            && e == Decision(cfg, c, now, AllOk(|c.ports|)) && ClockInv(cfg, e) && e.bestId == d.bestId
            && (forall p | 0 <= p < |d.ports| ::
                  d.ports[p].state == c.ports[p].state && e.ports[p].state == StateAfter(cfg, d, p, d.bestId != c.bestId, true))
            && (forall i | 0 <= i < |d.ports| && Recommended(cfg, d, i) == GRAND_MASTER ::
                  e.dad == OwnParent(cfg.dds) && e.stepsRemoved == 0)
            && (forall i | 0 <= i < |d.ports| && Recommended(cfg, d, i) == SLAVE ::
                  var r := BestOf(d.ports[i]);
                  && r.Some? && r.value.messages != []
                  && e.dad == SlaveParent(r.value.dataset.sender, r.value.messages[0])
                  && e.stepsRemoved == 1 + r.value.dataset.stepsRemoved)
  {
    var cfg, c := net[n].cfg, net[n].clock;
    hide Topology, Quiet, StateAfter, Recommended, Chosen, ClockInv;
    TopologyAt(net, n);
    d := Chosen(cfg, c, now);
    ChosenStates(cfg, c, now);
    DecisionKeepsInv(cfg, c, now, AllOk(|c.ports|));
    Turns(cfg, d, |d.ports|, d.bestId != c.bestId, AllOk(|c.ports|));
    e := AllDecided(cfg, d, d.bestId != c.bestId, AllOk(|c.ports|));
  }

  lemma ChosenStates(cfg: ClockConfig, c: ClockValue, now: int)
    requires WellFormed(cfg) && ClockInv(cfg, c)
    ensures var d := Chosen(cfg, c, now);
            |d.ports| == |c.ports| && DecisionReady(cfg, d) && forall p | 0 <= p < |d.ports| :: d.ports[p].state == c.ports[p].state
  {
    ChosenFacts(cfg, c, now);
    ChosenIsReady(cfg, c, now);
  }

  lemma TimersKeepInv(cfg: ClockConfig, e: ClockValue)
    requires ClockInv(cfg, e)
    ensures ClockInv(cfg, AfterTimers(e))
  {
    var f := AfterTimers(e);
    forall i | 0 <= i < |f.ports|
      ensures PortInv(cfg.ports[i], f.ports[i]) && Anchored(f.ports[i])
      ensures Synchronizing(f.ports[i].state) ==> Synchronizing(e.ports[i].state)
    {
      assert PortInv(cfg.ports[i], e.ports[i]) && Anchored(e.ports[i]);
    }
  }

  lemma DecideKeepsTopology(net: Net, now: int)
    requires Topology(net)
    ensures Topology(AllDecide(net, now)) && SameTopology(net, AllDecide(net, now))
  {
    hide ClockInv, WellFormed, Decision, AfterTimers;
    forall n: nat | n < |net| ensures ClockInv(net[n].cfg, AfterDecision(net[n].cfg, net[n].clock, now)) {
      var d, e := Decides(net, now, n);
      TimersKeepInv(net[n].cfg, e);
    }
    InvIsTopology(net, AllDecide(net, now));
  }

  lemma InvIsTopology(a: Net, b: Net)
    requires Topology(a) && SameTopology(a, b) && forall n: nat | n < |b| :: ClockInv(b[n].cfg, b[n].clock)
    ensures Topology(b)
  {
    hide WellFormed;
    forall n: nat | n < |b| ensures |b[n].peers| == |b[n].cfg.ports| == |b[n].clock.ports| > 0 {
      assert ClockInv(b[n].cfg, b[n].clock);
    }
    hide ClockInv;
    forall n: nat, p: nat | IsPort(b, n, p)
      ensures var (m, q) := b[n].peers[p]; m != n && IsPort(b, m, q) && b[m].peers[q] == (n, p)
    {
      assert IsPort(a, n, p);
      var (m, q) := a[n].peers[p];
      assert IsPort(a, m, q) && a[m].peers[q] == (n, p);
    }
    forall n: nat, p: nat, q: nat | IsPort(b, n, p) && IsPort(b, n, q) && p != q ensures Pid(b, n, p) != Pid(b, n, q) {
      assert IsPort(a, n, p) && IsPort(a, n, q) && Pid(a, n, p) != Pid(a, n, q);
    }
    forall n: nat, m: nat | n < m < |b| ensures Identity(b, n) != Identity(b, m) {
      assert Identity(a, n) != Identity(a, m);
    }
  }

  /** The state that a port is left in by a decision. */
  lemma DecidedState(net: Net, now: int, n: nat, p: nat) returns (d: ClockValue, news: bool)
    requires Topology(net) && IsPort(net, n, p) && Enabled(State(net, n, p))
    ensures d == Chosen(net[n].cfg, net[n].clock, now) && news == (d.bestId != net[n].clock.bestId)
    ensures p < |d.ports| && d.ports[p].state == State(net, n, p)
    ensures var rec := Recommended(net[n].cfg, d, p);
            Recommendable(rec) && State(AllDecide(net, now), n, p) == Turned(State(net, n, p), rec, news)
    ensures Recommended(net[n].cfg, d, p) == LISTENING ==>
              State(net, n, p) == LISTENING && BestDataset(d.ports[p]).None?
  {
    hide Topology, Chosen, Decision, ClockInv, PtpFsm, WellFormed, PortInv, Recommendation;
    TopologyAt(net, n);
    var e;
    d, e := Decides(net, now, n);
    news := d.bestId != net[n].clock.bestId;
    RecommendationFacts(net[n].cfg, d.best, BestsOf(d.ports), p, d.ports[p].state);
    var rec := Recommended(net[n].cfg, d, p);
    HasItsMachine(net[n].cfg, p);
    DispatchIsMachine(net[n].cfg.ports[p], d.ports[p], rec, news, true);
    if rec == LISTENING {
      NoListening(net[n].cfg, d, p);
    }
  }

  lemma HasItsMachine(cfg: ClockConfig, p: nat)
    requires WellFormed(cfg) && p < |cfg.ports|
    ensures HasMachine(cfg.ports[p])
  {
  }

  lemma AwakeNeverListens(net: Net, now: int, n: nat, p: nat, d: ClockValue)
    requires Awake(net, now) && IsPort(net, n, p) && d == Chosen(net[n].cfg, net[n].clock, now)
    requires p < |d.ports| && Recommended(net[n].cfg, d, p) == LISTENING ==>
               State(net, n, p) == LISTENING && BestDataset(d.ports[p]).None?
    ensures p < |d.ports| ==> Recommended(net[n].cfg, d, p) != LISTENING
  {
    hide Ready, Chosen, Recommended;
  }

  /** All clocks follow their decisions. */
  lemma DecideObeys(net: Net, now: int, n: nat)
    requires Awake(net, now) && n < |net|
    ensures Obeys(AllDecide(net, now), n, Chosen(net[n].cfg, net[n].clock, now))
  {
    hide Chosen, Decision, Recommended, ClockInv, Topology;
    var d, e := Decides(net, now, n);
    TopologyAt(net, n);
    forall p: nat | p < |d.ports|
      ensures Recommended(net[n].cfg, d, p) != LISTENING
      ensures Transmits(AllDecide(net, now), n, p) <==>
                Recommended(net[n].cfg, d, p) == GRAND_MASTER || Recommended(net[n].cfg, d, p) == MASTER
    {
      DecideObeysAt(net, now, n, p);
    }
    assert AllDecide(net, now)[n].clock == AfterTimers(e);
  }

  lemma DecideObeysAt(net: Net, now: int, n: nat, p: nat)
    requires Awake(net, now) && IsPort(net, n, p)
    ensures var rec := Recommended(net[n].cfg, Chosen(net[n].cfg, net[n].clock, now), p);
            rec != LISTENING && (Transmits(AllDecide(net, now), n, p) <==> rec == GRAND_MASTER || rec == MASTER)
  {
    hide Chosen, Recommended, Topology, Bests, AllDecide;
    ReadyAt(net, n, p);
    var d, news := DecidedState(net, now, n, p);
    AwakeNeverListens(net, now, n, p, d);
    TurnedFollows(State(net, n, p), Recommended(net[n].cfg, d, p), news);
  }

  lemma ReadyAt(net: Net, n: nat, p: nat)
    requires Ready(net) && IsPort(net, n, p)
    ensures Topology(net) && Enabled(State(net, n, p))
  {
    hide Topology;
  }

  lemma DecideConcludes(net: Net, now: int, n: nat)
    requires Awake(net, now) && n < |net|
    ensures Concluded(AllDecide(net, now), n, Bests(net, n, now))
  {
    hide Topology, Chosen, Concluded, Obeys, ClockInv;
    DecideKeepsTopology(net, now);
    DecideObeys(net, now, n);
    TopologyAt(net, n);
    ObedienceConcludes(AllDecide(net, now), n, net[n].clock, now);
  }

  // ---------------------------------------------------------------------
  // Rounds are stages
  // ---------------------------------------------------------------------

  lemma BoundaryInforms(d: Net, now: int, n: nat, p: nat, best: Option<Dataset>)
    requires Topology(d) && IsPort(d, n, p) && Informed(d, now, n, p, best)
    requires forall n | 0 <= n < |d| :: !d[n].transparent
    ensures HearsPeer(d, n, p, best)
  {
    hide Topology;
    PeerOf(d, n, p);
    BoundarySends(d, now, n, p, best);
  }

  lemma DecideIsBoundary(net: Net, now: int)
    requires Ready(net)
    ensures forall n | 0 <= n < |net| :: !AllDecide(net, now)[n].transparent
  {
    hide Topology;
  }

  lemma ListenedHearkens(d: Net, net: Net, now: int, n: nat)
    requires Topology(d) && Listened(d, net, now) && n < |d|
    requires forall n | 0 <= n < |d| :: !d[n].transparent
    ensures Hearkens(d, n, Bests(net, n, now))
  {
    hide Bests, Informed, Waited, HearsPeer;
    TopologyAt(net, n);
    hide Topology;
    forall p: nat | p < |Bests(net, n, now)| ensures HearsPeer(d, n, p, Bests(net, n, now)[p]) {
      assert ListenedAt(d, net, now, n, p);
      BoundaryInforms(d, now, n, p, Bests(net, n, now)[p]);
    }
  }

  /** After a round all ports work, and none waits for a first Announce. */
  lemma RoundWakes(a: Net, nowA: int, b: Net, nowB: int)
    requires Ready(a) && Round(a, nowA, b, nowB)
    ensures Awake(b, nowB) && SameTopology(a, b)
  {
    hide ClockInv, WellFormed, Bests, Informed, Waited, AllDecide;
    DecideKeepsTopology(a, nowA);
    DecideIsBoundary(a, nowA);
    forall n: nat, p: nat | IsPort(b, n, p)
      ensures Enabled(State(b, n, p)) && (p < |Bests(b, n, nowB)| && Bests(b, n, nowB)[p].None? ==> State(b, n, p) != LISTENING)
    {
      RoundWakesAt(a, nowA, b, nowB, n, p);
    }
  }

  lemma RoundWakesAt(a: Net, nowA: int, b: Net, nowB: int, n: nat, p: nat)
    requires Ready(a) && Round(a, nowA, b, nowB) && IsPort(b, n, p)
    ensures p < |Bests(b, n, nowB)| && Enabled(State(b, n, p)) && (Bests(b, n, nowB)[p].None? ==> State(b, n, p) != LISTENING)
  {
    hide Topology, Informed, Bests, Chosen, Recommended, AllDecide;
    DecideKeepsTopology(a, nowA);
    TopologyAt(b, n);
    assert IsPort(a, n, p);
    ReadyAt(a, n, p);
    var d, news := DecidedState(a, nowA, n, p);
    TurnedFollows(State(a, n, p), Recommended(a[n].cfg, d, p), news);
    assert ListenedAt(AllDecide(a, nowA), b, nowB, n, p);
    WaitedIsAwake(State(AllDecide(a, nowA), n, p), State(b, n, p), Bests(b, n, nowB)[p]);
  }

  lemma RoundIsStage(a: Net, nowA: int, b: Net, nowB: int)
    requires Ready(a) && Round(a, nowA, b, nowB)
    ensures Topology(b) && Stage(AllDecide(a, nowA), AllDecide(b, nowB), AllBests(b, nowB))
  {
    hide Topology, Concluded, Hearkens, Bests, AllDecide;
    RoundWakes(a, nowA, b, nowB);
    DecideKeepsTopology(a, nowA);
    DecideKeepsTopology(b, nowB);
    DecideIsBoundary(a, nowA);
    forall n: nat | n < |b|
      ensures Hearkens(AllDecide(a, nowA), n, AllBests(b, nowB)[n]) && Concluded(AllDecide(b, nowB), n, AllBests(b, nowB)[n])
    {
      ListenedHearkens(AllDecide(a, nowA), b, nowB, n);
      DecideConcludes(b, nowB, n);
    }
  }

  // ---------------------------------------------------------------------
  // Rest
  // ---------------------------------------------------------------------

  /** Equal data sets lead to equal conclusions. */
  lemma ConcludeAlike(y: Net, z: Net, n: nat, bs: seq<Option<Dataset>>, cs: seq<Option<Dataset>>)
    requires n < |y| && n < |z| && y[n].cfg == z[n].cfg && AllAlike(bs, cs)
    requires Concluded(y, n, bs) && Concluded(z, n, cs)
    ensures y[n].clock.dad == z[n].clock.dad && y[n].clock.stepsRemoved == z[n].clock.stepsRemoved
  {
    hide Leading, Dscmp;
    LeadingAlike(Own(y, n), bs, cs);
    var b := ClockBest(Dscmp(IEEE1588), bs);
    if !Leading(Own(y, n), bs) {
      LeadingHasBest(Own(y, n), bs);
      assert Alike(bs[b.value], cs[b.value]);
    }
  }

  lemma LeadingHasBest(own: Dataset, bs: seq<Option<Dataset>>)
    requires !Leading(own, bs)
    ensures ClockBest(Dscmp(IEEE1588), bs).Some?
  {
  }

  /** Two choices among equal data sets recommend the same. */
  lemma RecommendAlike(cfg: ClockConfig, d: ClockValue, e: ClockValue, p: nat)
    requires cfg.cmp == Dscmp(IEEE1588) && cfg.dds.clockQuality.clockClass > 127
    requires AllAlike(BestsOf(d.ports), BestsOf(e.ports)) && p < |d.ports|
    requires d.best == ClockBest(cfg.cmp, BestsOf(d.ports)) && e.best == ClockBest(cfg.cmp, BestsOf(e.ports))
    requires Recommended(cfg, d, p) != LISTENING && p < |e.ports| && Recommended(cfg, e, p) != LISTENING
    ensures Recommended(cfg, d, p) == Recommended(cfg, e, p) && d.best == e.best
  {
    hide Recommended, BestsOf, ClockBest, Dscmp;
    LeadingAlike(DefaultDataset(cfg.dds), BestsOf(d.ports), BestsOf(e.ports));
    RecommendedIs(cfg, d, p);
    RecommendedIs(cfg, e, p);
    if !Leading(DefaultDataset(cfg.dds), BestsOf(d.ports)) {
      assert Alike(BestsOf(d.ports)[d.best.value], BestsOf(e.ports)[d.best.value]);
      assert Alike(BestsOf(d.ports)[p], BestsOf(e.ports)[p]);
      CompareAlike(BestsOf(d.ports)[d.best.value], BestsOf(d.ports)[p], BestsOf(e.ports)[d.best.value], BestsOf(e.ports)[p]);
    }
  }

  lemma CompareAlike(a: Option<Dataset>, b: Option<Dataset>, c: Option<Dataset>, d: Option<Dataset>)
    requires Alike(a, c) && Alike(b, d)
    ensures Compare(Dscmp(IEEE1588), a, b) == Compare(Dscmp(IEEE1588), c, d)
  {
  }

  lemma SameBestId(net: Net, now: int, n: nat, d: ClockValue, e: ClockValue)
    requires Topology(net) && n < |net|
    requires AllAlike(BestsOf(d.ports), BestsOf(e.ports)) && d.best == e.best
    requires d.best.Some? ==> d.best.value < |d.ports| && BestsOf(d.ports)[d.best.value].Some?
    requires d.bestId == if d.best.Some? then BestsOf(d.ports)[d.best.value].value.identity else net[n].cfg.dds.clockIdentity
    requires e.best.Some? ==> e.best.value < |e.ports| && BestsOf(e.ports)[e.best.value].Some?
    requires e.bestId == if e.best.Some? then BestsOf(e.ports)[e.best.value].value.identity else net[n].cfg.dds.clockIdentity
    ensures d.bestId == e.bestId
  {
    hide Topology, BestsOf;
    if d.best.Some? {
      assert Alike(BestsOf(d.ports)[d.best.value], BestsOf(e.ports)[d.best.value]);
    }
  }

  lemma ChosenBest(cfg: ClockConfig, c: ClockValue, now: int)
    requires |c.ports| == |cfg.ports|
    ensures var d := Chosen(cfg, c, now);
            && d.best == ClockBest(cfg.cmp, BestsOf(d.ports))
            && (d.best.Some? ==> d.best.value < |d.ports| && BestsOf(d.ports)[d.best.value].Some?)
            && d.bestId == (if d.best.Some? then BestsOf(d.ports)[d.best.value].value.identity else cfg.dds.clockIdentity)
  {
    hide WithBests, BestsOf, ClockBest;
  }

  /** The second of two rounds with equal data sets finds every choice made. */
  lemma ChoiceStays(b: Net, nowB: int, c: Net, nowC: int, n: nat)
    requires Ready(b) && Round(b, nowB, c, nowC) && n < |b| && AllAlike(Bests(b, n, nowB), Bests(c, n, nowC))
    ensures Chosen(c[n].cfg, c[n].clock, nowC).bestId == c[n].clock.bestId
    ensures Chosen(c[n].cfg, c[n].clock, nowC).bestId == Chosen(b[n].cfg, b[n].clock, nowB).bestId
  {
    hide Topology, Chosen, Alike, BestsOf, ClockBest, Decision;
    TopologyAt(b, n);
    TopologyAt(c, n);
    var d, e := Decides(b, nowB, n);
    DecideKeepsTopology(b, nowB);
    ChosenBest(b[n].cfg, b[n].clock, nowB);
    ChosenBest(c[n].cfg, c[n].clock, nowC);
    LeadingAlike(Own(b, n), Bests(b, n, nowB), Bests(c, n, nowC));
    SameBestId(b, nowB, n, d, Chosen(c[n].cfg, c[n].clock, nowC));
    assert AllDecide(b, nowB)[n].clock.bestId == e.bestId;
  }

  /** In a round with equal data sets the state of a port stays as it is. */
  lemma PortStays(b: Net, nowB: int, c: Net, nowC: int, n: nat, p: nat)
    requires Awake(b, nowB) && Awake(c, nowC) && Round(b, nowB, c, nowC)
    requires IsPort(c, n, p) && n < |b| && AllAlike(Bests(b, n, nowB), Bests(c, n, nowC))
    ensures var d := Chosen(c[n].cfg, c[n].clock, nowC);
            && p < |d.ports| && d.ports[p].state == State(c, n, p) == StateAfter(c[n].cfg, d, p, false, true)
            && AtRest(c[n].clock.ports[p], BestDataset(d.ports[p]))
  {
    hide Topology, Chosen, Alike, BestsOf, ClockBest, Decision, AllDecide, Recommended, BestDataset, Ready;
    TopologyAt(b, n);
    TopologyAt(c, n);
    DecideKeepsTopology(b, nowB);
    ReadyAt(c, n, p);
    ReadyAt(b, n, p);
    var d, was := DecidedState(b, nowB, n, p);
    var e, news := DecidedState(c, nowC, n, p);
    AwakeNeverListens(b, nowB, n, p, d);
    AwakeNeverListens(c, nowC, n, p, e);
    ChosenBest(b[n].cfg, b[n].clock, nowB);
    ChosenBest(c[n].cfg, c[n].clock, nowC);
    RecommendAlike(c[n].cfg, d, e, p);
    BestsAt(c, n, nowC, p);
    ChoiceFacts(c, nowC, n, p, e);
    assert ListenedAt(AllDecide(b, nowB), c, nowC, n, p);
    TurnedStays(State(b, n, p), Recommended(c[n].cfg, e, p), was, State(c, n, p), Bests(c, n, nowC)[p]);
    HasItsMachine(c[n].cfg, p);
    DispatchIsMachine(c[n].cfg.ports[p], e.ports[p], Recommended(c[n].cfg, e, p), false, true);
  }

  lemma BestsAt(net: Net, n: nat, now: int, p: nat)
    requires n < |net| && |net[n].clock.ports| == |net[n].cfg.ports| && p < |net[n].cfg.ports|
    ensures Bests(net, n, now)[p] == BestDataset(Chosen(net[n].cfg, net[n].clock, now).ports[p])
  {
  }

  lemma ChoiceFacts(net: Net, now: int, n: nat, p: nat, d: ClockValue)
    requires Topology(net) && IsPort(net, n, p) && d == Chosen(net[n].cfg, net[n].clock, now) && p < |d.ports|
    ensures Bests(net, n, now)[p].None? && Recommended(net[n].cfg, d, p) != LISTENING ==>
              Recommended(net[n].cfg, d, p) == GRAND_MASTER || Recommended(net[n].cfg, d, p) == MASTER
  {
    hide Topology, BestDataset, Chosen;
    TopologyAt(net, n);
    ChosenBest(net[n].cfg, net[n].clock, now);
    RecommendationFacts(net[n].cfg, d.best, BestsOf(d.ports), p, d.ports[p].state);
  }

  lemma QuietAgain(b: Net, nowB: int, c: Net, nowC: int, n: nat)
    requires Awake(b, nowB) && Awake(c, nowC) && Round(b, nowB, c, nowC)
    requires n < |b| && AllAlike(Bests(b, n, nowB), Bests(c, n, nowC))
    ensures Quiet(c, n, nowC)
  {
    hide Topology, Chosen, Alike, Bests, ClockBest, Decision, StateAfter, AtRest, Ready, ClockInv, Concluded;
    TopologyAt(b, n);
    TopologyAt(c, n);
    DecideKeepsTopology(b, nowB);
    DecideKeepsTopology(c, nowC);
    ChoiceStays(b, nowB, c, nowC, n);
    var d, e := Decides(c, nowC, n);
    assert AllDecide(c, nowC)[n].clock == AfterTimers(e);
    DecideConcludes(b, nowB, n);
    DecideConcludes(c, nowC, n);
    ConcludeAlike(AllDecide(b, nowB), AllDecide(c, nowC), n, Bests(b, n, nowB), Bests(c, n, nowC));
    forall p: nat | p < |c[n].clock.ports|
      ensures p < |e.ports| && e.ports[p].state == c[n].clock.ports[p].state
      ensures p < |d.ports| && AtRest(c[n].clock.ports[p], BestDataset(d.ports[p]))
    {
      PortStays(b, nowB, c, nowC, n, p);
    }
  }

  lemma WaitedTransmits(s: PortState, t: PortState, best: Option<Dataset>)
    requires Waited(s, t, best) && (best.None? ==> Transmitting(s))
    ensures Transmitting(s) <==> Transmitting(t)
  {
  }

  /** What leaves a port is the same after listening. */
  lemma SendsStay(a: Net, nowA: int, b: Net, nowB: int, c: Net, nowC: int, m: nat, q: nat)
    requires Ready(a) && Round(a, nowA, b, nowB) && Round(b, nowB, c, nowC) && Ready(b) && IsPort(c, m, q)
    requires AllAlike(Bests(b, m, nowB), Bests(c, m, nowC))
    ensures m < |b| && Transmits(AllDecide(b, nowB), m, q) == Transmits(c, m, q)
  {
    hide Topology, Informed, Waited, Concluded, Hearkens, AllDecide, Bests, Ready;
    DecideKeepsTopology(b, nowB);
    RoundIsStage(a, nowA, b, nowB);
    TopologyAt(b, m);
    TopologyAt(c, m);
    StageAt(AllDecide(a, nowA), AllDecide(b, nowB), AllBests(b, nowB), m);
    assert Alike(Bests(b, m, nowB)[q], Bests(c, m, nowC)[q]);
    if Bests(c, m, nowC)[q].None? {
      DeafTransmits(AllDecide(a, nowA), AllDecide(b, nowB), m, Bests(b, m, nowB), q);
    }
    assert ListenedAt(AllDecide(b, nowB), c, nowC, m, q);
    WaitedTransmits(State(AllDecide(b, nowB), m, q), State(c, m, q), Bests(c, m, nowC)[q]);
  }

  /** Who is informed of one of two networks that send the same is informed of the other. */
  lemma InformedAlike(y: Net, c: Net, now: int, n: nat, p: nat, best: Option<Dataset>)
    requires Topology(y) && Topology(c) && SameTopology(y, c) && IsPort(c, n, p) && IsPort(y, n, p) && Informed(y, now, n, p, best)
    requires var (m, q) := c[n].peers[p];
             && m < |c| && !y[m].transparent && !c[m].transparent && Transmits(y, m, q) == Transmits(c, m, q)
             && y[m].clock.dad == c[m].clock.dad && y[m].clock.stepsRemoved == c[m].clock.stepsRemoved
    ensures Informed(c, now, n, p, best)
  {
    SameNames(y, c, n);
    SameNames(y, c, c[n].peers[p].0);
    PeerOf(c, n, p);
    TopologyAt(c, c[n].peers[p].0);
    hide Topology, Relayed;
  }

  /** Two rounds after whose decisions the clocks agree, and the links with them,
      leave the network quiescent. */
  lemma ComesToRest(a: Net, nowA: int, b: Net, nowB: int, c: Net, nowC: int)
    requires Ready(a) && Round(a, nowA, b, nowB) && Round(b, nowB, c, nowC) && Topology(b)
    requires var x, y := AllDecide(a, nowA), AllDecide(b, nowB); Agreed(x, y) && Ruled(x) && Ruled(y)
    ensures Quiescent(c, nowC)
  {
    hide Topology, Informed, Waited, AllDecide, Bests, Ready, Ruled, Round, Quiet, AllAlike;
    RoundWakes(a, nowA, b, nowB);
    RoundWakes(b, nowB, c, nowC);
    AwakeIsBoundary(c, nowC);
    PortsMatch(b);
    PortsMatch(c);
    forall n: nat | n < |c| ensures n < |b| && AllAlike(Bests(b, n, nowB), Bests(c, n, nowC)) && Quiet(c, n, nowC) {
      RoundAlike(a, nowA, b, nowB, c, nowC, n);
      QuietAgain(b, nowB, c, nowC, n);
    }
    forall n: nat, p: nat | IsPort(c, n, p) ensures p < |Bests(c, n, nowC)| && Informed(c, nowC, n, p, Bests(c, n, nowC)[p]) {
      PeerOf(c, n, p);
      InformedAgain(a, nowA, b, nowB, c, nowC, n, p);
    }
  }

  lemma AwakeIsBoundary(net: Net, now: int)
    requires Awake(net, now)
    ensures Topology(net) && forall n | 0 <= n < |net| :: !net[n].transparent
  {
    hide Topology;
  }

  lemma RoundAlike(a: Net, nowA: int, b: Net, nowB: int, c: Net, nowC: int, n: nat)
    requires Ready(a) && Round(a, nowA, b, nowB) && Round(b, nowB, c, nowC) && Topology(b) && Topology(c) && n < |c|
    requires var x, y := AllDecide(a, nowA), AllDecide(b, nowB); Agreed(x, y) && Ruled(x) && Ruled(y)
    ensures n < |b| && AllAlike(Bests(b, n, nowB), Bests(c, n, nowC))
  {
    hide Topology, Concluded, Hearkens, AllDecide, Bests, Ready, Ruled, Listened;
    RoundWakes(a, nowA, b, nowB);
    RoundWakes(b, nowB, c, nowC);
    RoundIsStage(a, nowA, b, nowB);
    RoundIsStage(b, nowB, c, nowC);
    StageAt(AllDecide(a, nowA), AllDecide(b, nowB), AllBests(b, nowB), n);
    StageAt(AllDecide(b, nowB), AllDecide(c, nowC), AllBests(c, nowC), n);
    HearkenAlike(AllDecide(a, nowA), AllDecide(b, nowB), n, AllBests(b, nowB)[n], AllBests(c, nowC)[n]);
  }

  lemma InformedAgain(a: Net, nowA: int, b: Net, nowB: int, c: Net, nowC: int, n: nat, p: nat)
    requires Ready(a) && Round(a, nowA, b, nowB) && Round(b, nowB, c, nowC)
    requires Awake(b, nowB) && Awake(c, nowC) && IsPort(c, n, p)
    requires var (m, q) := c[n].peers[p];
             m < |c| && IsPort(c, m, q) && m < |b| && AllAlike(Bests(b, m, nowB), Bests(c, m, nowC))
    ensures p < |Bests(c, n, nowC)| && Informed(c, nowC, n, p, Bests(c, n, nowC)[p])
  {
    hide Topology, Informed, Waited, AllDecide, Bests, Ready, AllAlike;
    var m, q := c[n].peers[p].0, c[n].peers[p].1;
    AwakeIsBoundary(b, nowB);
    AwakeIsBoundary(c, nowC);
    TopologyAt(c, n);
    DecideKeepsTopology(b, nowB);
    DecideIsBoundary(b, nowB);
    SendsStay(a, nowA, b, nowB, c, nowC, m, q);
    assert ListenedAt(AllDecide(b, nowB), c, nowC, n, p);
    InformedAlike(AllDecide(b, nowB), c, nowC, n, p, Bests(c, n, nowC)[p]);
  }

  // ---------------------------------------------------------------------
  // Runs
  // ---------------------------------------------------------------------

  /** A run of rounds from any state in which all ports work. */
  ghost predicate Rounds(nets: seq<Net>, times: seq<int>) {
    && 0 < |nets| == |times| && Ready(nets[0])
    && forall i | 0 <= i < |nets| - 1 :: Round(nets[i], times[i], nets[i + 1], times[i + 1])
  }

  lemma RoundAt(nets: seq<Net>, times: seq<int>, i: nat)
    requires Rounds(nets, times) && i + 1 < |nets|
    ensures Round(nets[i], times[i], nets[i + 1], times[i + 1])
  {
    hide Round, Ready;
  }

  lemma {:induction false} StaysReady(nets: seq<Net>, times: seq<int>, i: nat)
    requires Rounds(nets, times) && i < |nets|
    ensures Ready(nets[i]) && Topology(nets[i]) && SameTopology(nets[0], nets[i])
  {
    hide Round, Ready, Topology;
    if i == 0 {
      ReadyTopology(nets[0]);
    } else {
      StaysReady(nets, times, i - 1);
      RoundAt(nets, times, i - 1);
      RoundWakes(nets[i - 1], times[i - 1], nets[i], times[i]);
      ReadyTopology(nets[i]);
    }
  }

  lemma ReadyTopology(net: Net)
    requires Ready(net)
    ensures Topology(net)
  {
    hide Topology;
  }

  /** The states after the decisions of a run form stages. */
  lemma RunIsStages(nets: seq<Net>, times: seq<int>) returns (ds: seq<Net>, bestss: seq<Bestss>)
    requires Rounds(nets, times)
    ensures |ds| == |nets| && Stages(ds, bestss) && SameTopology(nets[0], ds[0])
    ensures forall i | 0 <= i < |nets| :: Topology(nets[i]) && ds[i] == AllDecide(nets[i], times[i])
  {
    hide Round, Ready, Topology, Rounds, AllDecide, Stage;
    forall i: nat | i < |nets| ensures Topology(nets[i]) {
      StaysReady(nets, times, i);
    }
    RoundsLengths(nets, times);
    ds := seq(|nets|, i requires 0 <= i < |nets| => AllDecide(nets[i], times[i]));
    bestss := seq(|nets| - 1, i requires 0 <= i < |nets| - 1 => AllBests(nets[i + 1], times[i + 1]));
    forall i: nat | i < |bestss| ensures Stage(ds[i], ds[i + 1], bestss[i]) {
      StaysReady(nets, times, i);
      RoundAt(nets, times, i);
      RoundIsStage(nets[i], times[i], nets[i + 1], times[i + 1]);
    }
    DecideKeepsTopology(nets[0], times[0]);
  }

  lemma RoundsLengths(nets: seq<Net>, times: seq<int>)
    requires Rounds(nets, times)
    ensures 0 < |nets| == |times|
  {
  }

  /** The number of rounds after which a network of k layers is at rest. */
  function RoundsFor(k: nat): nat {
    LAYER * k + 4
  }

  /** Whatever state the clocks of a network begin in that keeps the invariant of a
      clock, the network is quiescent after 513 rounds for each of its layers and four
      more, and stays so.  The clocks within 255 links of the best ones of their
      components are the first layer, and of those that remain the clocks within 255
      links, through them, of the best among them are the next. */
  lemma Converges(nets: seq<Net>, times: seq<int>, k: nat, i: nat)
    requires Rounds(nets, times) && Remaining(nets[0], k) == {} && RoundsFor(k) <= i < |nets|
    ensures Quiescent(nets[i], times[i])
  {
    hide Round, Ready, Topology, Rounds, AllDecide, Stages, Remaining, Agreed, Ruled, Quiescent;
    RoundsLengths(nets, times);
    var ds, bestss := RunIsStages(nets, times);
    SameRemaining(nets[0], ds[0], k);
    StagesSettle(ds, bestss, k, i - 2);
    StagesSettle(ds, bestss, k, i - 1);
    StagesAgree(ds, bestss, k, i - 2);
    StaysReady(nets, times, i - 2);
    RoundAt(nets, times, i - 2);
    RoundAt(nets, times, i - 1);
    ComesToRest(nets[i - 2], times[i - 2], nets[i - 1], times[i - 1], nets[i], times[i]);
  }

  /** If every clock is within 255 links of the best one of its component, that makes
      517 rounds, whatever the size of the network. */
  lemma ConvergesWithinReach(nets: seq<Net>, times: seq<int>, i: nat)
    requires Rounds(nets, times) && WithinReach(nets[0]) && 517 <= i < |nets|
    ensures Quiescent(nets[i], times[i])
  {
    hide Rounds, WithinReach, Remaining, Quiescent;
    OneLayer(nets[0]);
    Converges(nets, times, 1, i);
  }

  /** And every network comes to rest: it has no more layers than clocks. */
  lemma AlwaysConverges(nets: seq<Net>, times: seq<int>, i: nat)
    requires Rounds(nets, times) && RoundsFor(|nets[0]|) <= i < |nets|
    ensures Quiescent(nets[i], times[i])
  {
    hide Round, Remaining, Quiescent, Topology;
    ReadyTopology(nets[0]);
    NoneRemain(nets[0]);
    Converges(nets, times, |nets[0]|, i);
  }
}
