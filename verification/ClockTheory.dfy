/** Invariants of a clock over every run of its port events and decisions. */
module ClockTheory {
  import opened Octets
  import opened DataSets
  import opened Bmc
  import opened Fsm
  import opened ForeignMasters
  import opened PortBmc
  import opened PortTheory
  import opened ClockBmc

  /** What can happen to a clock between two polls.  A port event is any event
      of the state machine but a recommendation, which only a decision sends. */
  datatype Step =
    | Receive(port: nat, m: Announce, now: int, initOk: bool)
    | AnnounceTimeout(port: nat, renewFails: bool, initOk: bool)
    | PortEvent(port: nat, event: Event, initOk: bool)
    | Decide(now: int, initOks: seq<bool>)

  predicate IsRecommendation(e: Event) {
    e == RS_MASTER || e == RS_GRAND_MASTER || e == RS_SLAVE || e == RS_PASSIVE
  }

  /** A slave only port renews its transport when it has heard nothing for too
      long, and is faulty if that fails. */
  function TimeoutEvent(cfg: PortConfig, state: PortState, renewFails: bool): Event {
    if cfg.slaveOnly && Enabled(state) && renewFails then FAULT_DETECTED else ANNOUNCE_RECEIPT_TIMEOUT_EXPIRES
  }

  /** Ports carry their clock's identity and use its comparison. */
  ghost predicate WellFormed(cfg: ClockConfig) {
    forall i | 0 <= i < |cfg.ports| ::
      && cfg.ports[i].identity.clockIdentity == cfg.dds.clockIdentity && cfg.ports[i].cmp == cfg.cmp
      && HasMachine(cfg.ports[i])
  }

  /** One step; a message that names this clock as its source is ignored. */
  function Apply(cfg: ClockConfig, c: ClockValue, s: Step): (d: ClockValue)
    requires |c.ports| == |cfg.ports|
    ensures |d.ports| == |c.ports|
  {
    match s
    case Receive(i, m, now, initOk) =>
      if i >= |c.ports| || m.source.clockIdentity == cfg.dds.clockIdentity then c
      else
        var (p, news) := WithAnnounce(c.ports[i], m, now);
        var event := if news then STATE_DECISION_EVENT else NONE;
        c.(ports := c.ports[i := Dispatched(cfg.ports[i], p, event, false, initOk)])
    case AnnounceTimeout(i, renewFails, initOk) =>
      if i >= |c.ports| then c
      else
        var p := WithClearedBest(c.ports[i]);
        var event := TimeoutEvent(cfg.ports[i], p.state, renewFails);
        c.(ports := c.ports[i := Dispatched(cfg.ports[i], p, event, false, initOk)])
    case PortEvent(i, event, initOk) =>
      if i >= |c.ports| || IsRecommendation(event) then c
      else c.(ports := c.ports[i := Dispatched(cfg.ports[i], c.ports[i], event, false, initOk)])
    case Decide(now, initOks) =>
      if |initOks| != |c.ports| then c else Decision(cfg, c, now, initOks)
  }

  function Initial(cfg: ClockConfig): (c: ClockValue)
    ensures |c.ports| == |cfg.ports|
  {
    ClockValue(seq(|cfg.ports|, i => PortValue(INITIALIZING, [], None)), None, cfg.dds.clockIdentity, OwnParent(cfg.dds), 0)
  }

  function RunFrom(cfg: ClockConfig, c: ClockValue, steps: seq<Step>): (d: ClockValue)
    requires |c.ports| == |cfg.ports|
    ensures |d.ports| == |cfg.ports|
  {
    if steps == [] then c
    else Apply(cfg, RunFrom(cfg, c, steps[..|steps| - 1]), steps[|steps| - 1])
  }

  function Run(cfg: ClockConfig, steps: seq<Step>): (c: ClockValue)
    ensures |c.ports| == |cfg.ports|
  {
    RunFrom(cfg, Initial(cfg), steps)
  }

  predicate Synchronizing(s: PortState) {
    s == UNCALIBRATED || s == SLAVE
  }

  ghost predicate SingleSlave(c: ClockValue) {
    forall i, j {:trigger Synchronizing(c.ports[i].state), Synchronizing(c.ports[j].state)} | 0 <= i < j < |c.ports| ::
      !(Synchronizing(c.ports[i].state) && Synchronizing(c.ports[j].state))
  }

  /** A port in a state that follows a master knows which one. */
  predicate Anchored(p: PortValue) {
    Following(p.state) ==> p.best.Some?
  }

  ghost predicate ClockInv(cfg: ClockConfig, c: ClockValue) {
    && |c.ports| == |cfg.ports|
    && (forall i {:trigger PortInv(cfg.ports[i], c.ports[i])} | 0 <= i < |c.ports| :: PortInv(cfg.ports[i], c.ports[i]))
    && (forall i {:trigger Anchored(c.ports[i])} | 0 <= i < |c.ports| :: Anchored(c.ports[i]))
    && SingleSlave(c)
    && c.stepsRemoved <= 255
  }

  // ---------------------------------------------------------------------
  // One dispatch
  // ---------------------------------------------------------------------

  lemma PtpEntersNoFollowing(s: PortState, event: Event)
    requires !IsRecommendation(event)
    ensures var next := PtpFsm(s, event, false);
            (Following(next) ==> Following(s)) && (Synchronizing(next) ==> Synchronizing(s))
  {
  }

  lemma SlaveEntersNoFollowing(s: PortState, event: Event)
    requires !IsRecommendation(event)
    ensures var next := PtpSlaveFsm(s, event, false);
            (Following(next) ==> Following(s)) && (Synchronizing(next) ==> Synchronizing(s))
  {
  }

  /** Neither machine enters a following state without a recommendation, or a
      synchronizing one from outside. */
  lemma MachineEntersNoFollowing(cfg: PortConfig, s: PortState, event: Event)
    requires HasMachine(cfg) && !IsRecommendation(event)
    ensures var next := NextState(cfg, s, event, false);
            && (Following(next) ==> Following(s))
            && (Synchronizing(next) ==> Synchronizing(s))
    ensures !Following(Initialized(cfg, true)) && !Following(Initialized(cfg, false))
  {
    PtpEntersNoFollowing(s, event);
    SlaveEntersNoFollowing(s, event);
    Cleared(cfg);
    hide PtpFsm, PtpSlaveFsm;
  }

  /** What clearing a fault and initializing lead to. */
  lemma Cleared(cfg: PortConfig)
    requires HasMachine(cfg)
    ensures cfg.machine(FAULTY, FAULT_CLEARED, false) == INITIALIZING
    ensures Initialized(cfg, true) == LISTENING && Initialized(cfg, false) == FAULTY
  {
  }

  predicate Recommendable(rec: PortState) {
    rec == LISTENING || rec == GRAND_MASTER || rec == MASTER || rec == PASSIVE || rec == SLAVE
  }

  predicate Heeds(s: PortState, rec: PortState, next: PortState) {
    && (Synchronizing(next) ==> rec == SLAVE)
    && (next == PASSIVE ==> rec == PASSIVE)
    && (Enabled(s) ==> Enabled(next)) && (next == FAULTY || next == DISABLED ==> next == s)
  }

  lemma PtpHeeds(s: PortState, rec: PortState, mdiff: bool)
    requires Recommendable(rec) && (rec == LISTENING ==> s == LISTENING)
    ensures Heeds(s, rec, PtpFsm(s, EventOf(rec), mdiff))
  {
  }

  lemma SlaveHeeds(s: PortState, rec: PortState, mdiff: bool)
    requires Recommendable(rec) && SlaveOnlyState(s) && (rec == LISTENING ==> s == LISTENING)
    ensures Heeds(s, rec, PtpSlaveFsm(s, EventOf(rec), mdiff))
  {
  }

  /** A recommendation takes effect in an enabled state, and clears an
      immediate fault at most in another. */
  lemma MachineFollowsRecommendation(cfg: PortConfig, s: PortState, rec: PortState, mdiff: bool)
    requires HasMachine(cfg) && (cfg.slaveOnly ==> SlaveOnlyState(s))
    requires Recommendable(rec) && (rec == LISTENING ==> s == LISTENING)
    ensures Heeds(s, rec, NextState(cfg, s, EventOf(rec), mdiff))
    ensures !Following(Initialized(cfg, true)) && !Following(Initialized(cfg, false))
  {
    if cfg.slaveOnly {
      SlaveHeeds(s, rec, mdiff);
    } else {
      PtpHeeds(s, rec, mdiff);
    }
    Cleared(cfg);
    hide PtpFsm, PtpSlaveFsm, EventOf;
  }

  /** Without a recommendation no port enters a following state: it is in one
      afterwards only if it was in one before, with the same records. */
  lemma EventEntersNoFollowing(cfg: PortConfig, p: PortValue, event: Event, initOk: bool)
    requires !IsRecommendation(event) && HasMachine(cfg) && PortInv(cfg, p)
    ensures var q := Dispatched(cfg, p, event, false, initOk);
            && (Following(q.state) ==> Following(p.state) && q.best == p.best)
            && (Synchronizing(q.state) ==> Synchronizing(p.state))
  {
    MachineEntersNoFollowing(cfg, p.state, event);
  }

  /** A recommendation leaves the records alone; only RS_SLAVE leads into or
      keeps a synchronizing state, and only RS_PASSIVE into PASSIVE. */
  lemma RecommendationEffect(cfg: PortConfig, p: PortValue, rec: PortState, mdiff: bool, initOk: bool)
    requires HasMachine(cfg) && PortInv(cfg, p)
    requires Recommendable(rec) && (rec == LISTENING ==> p.state == LISTENING)
    ensures var q := Dispatched(cfg, p, EventOf(rec), mdiff, initOk);
            && q.records == p.records && q.best == p.best
            && (Synchronizing(q.state) ==> rec == SLAVE)
            && (q.state == PASSIVE ==> rec == PASSIVE)
  {
    MachineFollowsRecommendation(cfg, p.state, rec, mdiff);
  }

  /** What a port in operation makes of its role, whatever state it is in: a listening one
      stays, a grandmaster transmits at once and a master after the qualification time, if
      they do not yet, and a slave is calibrated anew if its master is another. */
  lemma RoleTaken(s: PortState, rec: PortState, mdiff: bool)
    requires Enabled(s) && Recommendable(rec)
    ensures PtpFsm(s, EventOf(rec), mdiff)
         == match rec
            case LISTENING => s
            case GRAND_MASTER => if Transmitting(s) || s == PRE_MASTER then s else GRAND_MASTER
            case MASTER => if Transmitting(s) || s == PRE_MASTER then s else PRE_MASTER
            case PASSIVE => PASSIVE
            case _ => if s == SLAVE && !mdiff then SLAVE else UNCALIBRATED
  {
  }

  // ---------------------------------------------------------------------
  // One decision
  // ---------------------------------------------------------------------

  /** Whom a decision recommends what. */
  lemma RecommendationFacts(cfg: ClockConfig, best: Option<nat>, bests: seq<Option<Dataset>>, i: nat, ps: PortState)
    requires i < |bests|
    requires best.Some? ==> best.value < |bests| && bests[best.value].Some?
    ensures var r := Recommendation(cfg.dds, cfg.cmp, best, bests, i, ps);
            && Recommendable(r)
            && (r == LISTENING ==> ps == LISTENING)
            && (r == SLAVE ==> best == Some(i))
            && (r == PASSIVE ==> bests[i].Some?)
  {
  }

  /** No decision recommends SLAVE to one port and GRAND_MASTER to another. */
  lemma NoSlaveBesideGrandMaster(
    cfg: ClockConfig, best: Option<nat>, bests: seq<Option<Dataset>>, i: nat, j: nat, ps: PortState, qs: PortState)
    requires i < |bests| && j < |bests|
    ensures !(Recommendation(cfg.dds, cfg.cmp, best, bests, i, ps) == SLAVE
              && Recommendation(cfg.dds, cfg.cmp, best, bests, j, qs) == GRAND_MASTER)
  {
  }

  lemma {:induction false} ClockBestIsThere(cmp: Comparison, bests: seq<Option<Dataset>>)
    ensures ClockBest(cmp, bests).None? <==> forall i | 0 <= i < |bests| :: bests[i].None?
  {
    if bests != [] {
      var n := |bests| - 1;
      ClockBestIsThere(cmp, bests[..n]);
      assert forall i | 0 <= i < n :: bests[..n][i] == bests[i];
    }
  }

  /** After the choice every port knows its best record and that record's
      data set was just refreshed. */
  lemma ChosenFacts(cfg: ClockConfig, c: ClockValue, now: int)
    requires WellFormed(cfg) && ClockInv(cfg, c)
    ensures var d := Chosen(cfg, c, now);
            && (forall i | 0 <= i < |d.ports| ::
                  && PortInv(cfg.ports[i], d.ports[i])
                  && d.ports[i].state == c.ports[i].state
                  && (d.ports[i].best.Some? <==> BestDataset(d.ports[i]).Some?))
            && (d.best.Some? ==> d.best.value < |d.ports| && SteadyBest(d.ports[d.best.value]))
  {
    forall i | 0 <= i < |c.ports| ensures
        var q := WithBest(cfg.ports[i], c.ports[i], now);
        PortInv(cfg.ports[i], q) && q.state == c.ports[i].state && (q.best.Some? ==> SteadyBest(q))
    {
      BestKeepsInv(cfg.ports[i], c.ports[i], now);
      if WithBest(cfg.ports[i], c.ports[i], now).best.Some? {
        var r := BestRecord(cfg.ports[i], c.ports[i], now);
      }
    }
  }

  /** The best record of a port is there, with messages, fewer than 255 steps away. */
  predicate SteadyBest(p: PortValue) {
    var r := BestOf(p);
    r.Some? && r.value.messages != [] && r.value.dataset.stepsRemoved < 255 && BestDataset(p) == Some(r.value.dataset)
  }

  /** The second loop over the first n ports: their recommendations took
      effect, records did not change, and no port but the best one synchronizes. */
  ghost predicate AfterTurns(cfg: ClockConfig, d: ClockValue, e: ClockValue, n: nat)
    requires n <= |d.ports| == |cfg.ports|
  {
    && |e.ports| == |d.ports| && e.best == d.best && e.bestId == d.bestId
    && (forall i | 0 <= i < |d.ports| ::
          && PortInv(cfg.ports[i], e.ports[i])
          && e.ports[i].records == d.ports[i].records && e.ports[i].best == d.ports[i].best
          && (n <= i ==> e.ports[i] == d.ports[i]))
    && (forall i | 0 <= i < n ::
          && Anchored(e.ports[i])
          && (Synchronizing(e.ports[i].state) ==> d.best == Some(i)))
    && e.stepsRemoved <= 255
  }

  /** The state between the two loops. */
  ghost predicate DecisionReady(cfg: ClockConfig, d: ClockValue) {
    && |d.ports| == |cfg.ports| && d.stepsRemoved <= 255
    && (forall i | 0 <= i < |d.ports| ::
          PortInv(cfg.ports[i], d.ports[i]) && (d.ports[i].best.Some? <==> BestDataset(d.ports[i]).Some?))
    && (d.best.Some? ==> d.best.value < |d.ports| && SteadyBest(d.ports[d.best.value]))
  }

  lemma NoTurn(cfg: ClockConfig, d: ClockValue, freshBest: bool, initOks: seq<bool>)
    requires WellFormed(cfg) && DecisionReady(cfg, d) && |initOks| == |d.ports|
    ensures AfterTurns(cfg, d, DecidedUpTo(cfg, d, 0, freshBest, initOks), 0)
  {
  }

  lemma TurnsKeepBests(cfg: ClockConfig, d: ClockValue, e: ClockValue, n: nat)
    requires |d.ports| == |cfg.ports| && n <= |d.ports| && AfterTurns(cfg, d, e, n)
    ensures BestsOf(e.ports) == BestsOf(d.ports)
  {
    forall i | 0 <= i < |d.ports| ensures BestDataset(e.ports[i]) == BestDataset(d.ports[i]) {
    }
  }

  /** The turn of port i, the last of n. */
  lemma OneTurn(cfg: ClockConfig, d: ClockValue, e: ClockValue, i: nat, n: nat, freshBest: bool, initOk: bool)
    requires WellFormed(cfg) && DecisionReady(cfg, d) && i < n <= |d.ports| && n == i + 1 && AfterTurns(cfg, d, e, i)
    ensures AfterTurns(cfg, d, Decided(cfg, e, i, freshBest, initOk), n)
  {
    hide Recommendation, Dispatched, PortInv;
    TurnsKeepBests(cfg, d, e, i);
    var ps := Recommendation(cfg.dds, cfg.cmp, e.best, BestsOf(e.ports), i, e.ports[i].state);
    RecommendationFacts(cfg, e.best, BestsOf(e.ports), i, e.ports[i].state);
    RecommendationEffect(cfg.ports[i], e.ports[i], ps, freshBest, initOk);
    DispatchKeepsInv(cfg.ports[i], e.ports[i], EventOf(ps), freshBest, initOk);
  }

  lemma OneMoreTurn(cfg: ClockConfig, d: ClockValue, n: nat, freshBest: bool, initOks: seq<bool>)
    requires 0 < n <= |d.ports| == |cfg.ports| == |initOks|
    ensures DecidedUpTo(cfg, d, n, freshBest, initOks)
         == Decided(cfg, DecidedUpTo(cfg, d, n - 1, freshBest, initOks), n - 1, freshBest, initOks[n - 1])
  {
    hide Decided;
  }

  lemma NextTurn(cfg: ClockConfig, d: ClockValue, n: nat, freshBest: bool, initOks: seq<bool>)
    requires WellFormed(cfg) && DecisionReady(cfg, d) && 0 < n <= |d.ports| == |initOks|
    requires AfterTurns(cfg, d, DecidedUpTo(cfg, d, n - 1, freshBest, initOks), n - 1)
    ensures AfterTurns(cfg, d, DecidedUpTo(cfg, d, n, freshBest, initOks), n)
  {
    hide DecidedUpTo, Decided, AfterTurns, PortInv, SteadyBest, WellFormed;
    OneTurn(cfg, d, DecidedUpTo(cfg, d, n - 1, freshBest, initOks), n - 1, n, freshBest, initOks[n - 1]);
    OneMoreTurn(cfg, d, n, freshBest, initOks);
  }

  lemma {:induction false} Turns(cfg: ClockConfig, d: ClockValue, n: nat, freshBest: bool, initOks: seq<bool>)
    requires WellFormed(cfg) && DecisionReady(cfg, d) && n <= |d.ports| == |initOks|
    ensures AfterTurns(cfg, d, DecidedUpTo(cfg, d, n, freshBest, initOks), n)
  {
    hide DecidedUpTo, AfterTurns, PortInv, SteadyBest, WellFormed;
    if n == 0 {
      NoTurn(cfg, d, freshBest, initOks);
    } else {
      Turns(cfg, d, n - 1, freshBest, initOks);
      NextTurn(cfg, d, n, freshBest, initOks);
    }
  }

  lemma ChosenIsReady(cfg: ClockConfig, c: ClockValue, now: int)
    requires WellFormed(cfg) && ClockInv(cfg, c)
    ensures DecisionReady(cfg, Chosen(cfg, c, now))
  {
    ChosenFacts(cfg, c, now);
  }

  /** The best record stays in place throughout the second loop. */
  lemma ReadyThroughout(cfg: ClockConfig, d: ClockValue, n: nat, freshBest: bool, initOks: seq<bool>)
    requires WellFormed(cfg) && DecisionReady(cfg, d) && n <= |d.ports| == |initOks|
    ensures var e := DecidedUpTo(cfg, d, n, freshBest, initOks);
            e.best == d.best && (e.best.Some? ==> SteadyBest(e.ports[e.best.value]))
  {
    Turns(cfg, d, n, freshBest, initOks);
  }

  lemma SamePorts(cfg: ClockConfig, c: ClockValue)
    requires ClockInv(cfg, c)
    ensures |c.ports| == |cfg.ports|
  {
  }

  lemma TurnsKeepInv(cfg: ClockConfig, d: ClockValue, e: ClockValue)
    requires |d.ports| == |cfg.ports| && AfterTurns(cfg, d, e, |d.ports|)
    ensures ClockInv(cfg, e)
    ensures e.best == d.best && forall i | 0 <= i < |e.ports| :: Synchronizing(e.ports[i].state) ==> e.best == Some(i)
  {
    hide PortInv, Anchored, Synchronizing;
  }

  /** After a decision only the port of the best record can synchronize. */
  lemma DecisionKeepsInv(cfg: ClockConfig, c: ClockValue, now: int, initOks: seq<bool>)
    requires WellFormed(cfg) && ClockInv(cfg, c) && |initOks| == |c.ports|
    ensures var e := Decision(cfg, c, now, initOks);
            && ClockInv(cfg, e)
            && e.best == Chosen(cfg, c, now).best
            && (forall i | 0 <= i < |e.ports| :: Synchronizing(e.ports[i].state) ==> e.best == Some(i))
  {
    hide Chosen, DecidedUpTo, AfterTurns, ClockInv, WellFormed;
    SamePorts(cfg, c);
    var d := Chosen(cfg, c, now);
    ChosenIsReady(cfg, c, now);
    Turns(cfg, d, |d.ports|, d.bestId != c.bestId, initOks);
    TurnsKeepInv(cfg, d, DecidedUpTo(cfg, d, |d.ports|, d.bestId != c.bestId, initOks));
  }

  /** A state p that becomes q by the recommendation rec. */
  predicate SlaveTurn(p: PortState, q: PortState, rec: PortState, freshBest: bool) {
    && (q == SLAVE <==> p == SLAVE && rec == SLAVE && !freshBest)
    && (p == SLAVE && rec == SLAVE && freshBest ==> q == UNCALIBRATED)
  }

  lemma PtpKeepsSlave(s: PortState, rec: PortState, mdiff: bool)
    requires Recommendable(rec) && (rec == LISTENING ==> s == LISTENING)
    ensures SlaveTurn(s, PtpFsm(s, EventOf(rec), mdiff), rec, mdiff)
  {
  }

  lemma SlaveKeepsSlave(s: PortState, rec: PortState, mdiff: bool)
    requires Recommendable(rec) && SlaveOnlyState(s) && (rec == LISTENING ==> s == LISTENING)
    ensures SlaveTurn(s, PtpSlaveFsm(s, EventOf(rec), mdiff), rec, mdiff)
  {
  }

  lemma MachineKeepsSlave(cfg: PortConfig, s: PortState, rec: PortState, mdiff: bool)
    requires HasMachine(cfg) && (cfg.slaveOnly ==> SlaveOnlyState(s))
    requires Recommendable(rec) && (rec == LISTENING ==> s == LISTENING)
    ensures SlaveTurn(s, NextState(cfg, s, EventOf(rec), mdiff), rec, mdiff)
    ensures Initialized(cfg, true) != SLAVE && Initialized(cfg, false) != SLAVE
  {
    if cfg.slaveOnly {
      SlaveKeepsSlave(s, rec, mdiff);
    } else {
      PtpKeepsSlave(s, rec, mdiff);
    }
    Cleared(cfg);
    hide PtpFsm, PtpSlaveFsm, EventOf;
  }

  lemma RecommendedSlave(cfg: PortConfig, p: PortValue, rec: PortState, mdiff: bool, initOk: bool)
    requires HasMachine(cfg) && PortInv(cfg, p)
    requires Recommendable(rec) && (rec == LISTENING ==> p.state == LISTENING)
    ensures SlaveTurn(p.state, Dispatched(cfg, p, EventOf(rec), mdiff, initOk).state, rec, mdiff)
  {
    MachineKeepsSlave(cfg, p.state, rec, mdiff);
  }

  /** What a decision recommends port i, in terms of the choice d it starts from. */
  function Recommended(cfg: ClockConfig, d: ClockValue, i: nat): PortState
    requires i < |d.ports|
  {
    Recommendation(cfg.dds, cfg.cmp, d.best, BestsOf(d.ports), i, d.ports[i].state)
  }

  ghost predicate SlavesAfter(cfg: ClockConfig, d: ClockValue, e: ClockValue, n: nat, freshBest: bool)
    requires n <= |d.ports|
  {
    |e.ports| == |d.ports| && forall i | 0 <= i < n :: SlaveTurn(d.ports[i].state, e.ports[i].state, Recommended(cfg, d, i), freshBest)
  }

  lemma OneSlaveTurn(cfg: ClockConfig, d: ClockValue, e: ClockValue, i: nat, n: nat, freshBest: bool, initOk: bool)
    requires WellFormed(cfg) && DecisionReady(cfg, d) && i < n <= |d.ports| && n == i + 1
    requires AfterTurns(cfg, d, e, i) && SlavesAfter(cfg, d, e, i, freshBest)
    ensures SlavesAfter(cfg, d, Decided(cfg, e, i, freshBest, initOk), n, freshBest)
  {
    TurnsKeepBests(cfg, d, e, i);
    RecommendationFacts(cfg, d.best, BestsOf(d.ports), i, d.ports[i].state);
    RecommendedSlave(cfg.ports[i], e.ports[i], Recommended(cfg, d, i), freshBest, initOk);
  }

  lemma NoSlaveTurn(cfg: ClockConfig, d: ClockValue, freshBest: bool, initOks: seq<bool>)
    requires |initOks| == |d.ports| == |cfg.ports|
    ensures SlavesAfter(cfg, d, DecidedUpTo(cfg, d, 0, freshBest, initOks), 0, freshBest)
  {
  }

  lemma NextSlaveTurn(cfg: ClockConfig, d: ClockValue, n: nat, freshBest: bool, initOks: seq<bool>)
    requires WellFormed(cfg) && DecisionReady(cfg, d) && 0 < n <= |d.ports| == |initOks|
    requires SlavesAfter(cfg, d, DecidedUpTo(cfg, d, n - 1, freshBest, initOks), n - 1, freshBest)
    ensures SlavesAfter(cfg, d, DecidedUpTo(cfg, d, n, freshBest, initOks), n, freshBest)
  {
    hide DecidedUpTo, Decided, AfterTurns, SlavesAfter, PortInv, SteadyBest, WellFormed;
    Turns(cfg, d, n - 1, freshBest, initOks);
    OneSlaveTurn(cfg, d, DecidedUpTo(cfg, d, n - 1, freshBest, initOks), n - 1, n, freshBest, initOks[n - 1]);
    OneMoreTurn(cfg, d, n, freshBest, initOks);
  }

  lemma {:induction false} SlaveTurns(cfg: ClockConfig, d: ClockValue, n: nat, freshBest: bool, initOks: seq<bool>)
    requires WellFormed(cfg) && DecisionReady(cfg, d) && n <= |d.ports| == |initOks|
    ensures SlavesAfter(cfg, d, DecidedUpTo(cfg, d, n, freshBest, initOks), n, freshBest)
  {
    hide DecidedUpTo, Decided, AfterTurns, SlavesAfter, PortInv, SteadyBest, WellFormed;
    if n == 0 {
      NoSlaveTurn(cfg, d, freshBest, initOks);
    } else {
      SlaveTurns(cfg, d, n - 1, freshBest, initOks);
      NextSlaveTurn(cfg, d, n, freshBest, initOks);
    }
  }

  /** A port is a slave after a decision exactly if it was one before, is still
      recommended to be, and the grandmaster is still the same; a new grandmaster
      sends it back to UNCALIBRATED. */
  lemma SlaveStaysExactly(cfg: ClockConfig, c: ClockValue, now: int, initOks: seq<bool>, i: nat)
    requires WellFormed(cfg) && ClockInv(cfg, c) && |initOks| == |c.ports| && i < |c.ports|
    ensures var d := Chosen(cfg, c, now);
            var rec := Recommended(cfg, d, i);
            var state := Decision(cfg, c, now, initOks).ports[i].state;
            && (state == SLAVE <==> c.ports[i].state == SLAVE && rec == SLAVE && d.bestId == c.bestId)
            && (c.ports[i].state == SLAVE && rec == SLAVE && d.bestId != c.bestId ==> state == UNCALIBRATED)
  {
    var d := Chosen(cfg, c, now);
    ChosenFacts(cfg, c, now);
    SlaveTurns(cfg, d, |d.ports|, d.bestId != c.bestId, initOks);
  }

  lemma StepKeepsInv(cfg: ClockConfig, c: ClockValue, s: Step)
    requires WellFormed(cfg) && ClockInv(cfg, c)
    ensures ClockInv(cfg, Apply(cfg, c, s))
  {
    match s
    case Receive(i, m, now, initOk) =>
      if i < |c.ports| && m.source.clockIdentity != cfg.dds.clockIdentity {
        AnnounceKeepsInv(cfg.ports[i], c.ports[i], m, now);
        var (p, news) := WithAnnounce(c.ports[i], m, now);
        var event := if news then STATE_DECISION_EVENT else NONE;
        PortStepKeepsInv(cfg, c, i, p, event, initOk);
      }
    case AnnounceTimeout(i, renewFails, initOk) =>
      if i < |c.ports| {
        ClearedBestKeepsInv(cfg.ports[i], c.ports[i]);
        var p := WithClearedBest(c.ports[i]);
        PortStepKeepsInv(cfg, c, i, p, TimeoutEvent(cfg.ports[i], p.state, renewFails), initOk);
      }
    case PortEvent(i, event, initOk) =>
      if i < |c.ports| && !IsRecommendation(event) {
        PortStepKeepsInv(cfg, c, i, c.ports[i], event, initOk);
      }
    case Decide(now, initOks) =>
      if |initOks| == |c.ports| {
        DecisionKeepsInv(cfg, c, now, initOks);
      }
  }

  lemma PortStepKeepsInv(cfg: ClockConfig, c: ClockValue, i: nat, p: PortValue, event: Event, initOk: bool)
    requires WellFormed(cfg) && ClockInv(cfg, c) && i < |c.ports| && !IsRecommendation(event)
    requires PortInv(cfg.ports[i], p) && p.state == c.ports[i].state && p.best == c.ports[i].best
    ensures ClockInv(cfg, c.(ports := c.ports[i := Dispatched(cfg.ports[i], p, event, false, initOk)]))
  {
    hide Dispatched, PortInv, Following, Synchronizing;
    EventEntersNoFollowing(cfg.ports[i], p, event, initOk);
    DispatchKeepsInv(cfg.ports[i], p, event, false, initOk);
    assert Anchored(c.ports[i]);
  }

  lemma {:induction false} RunFromKeepsInv(cfg: ClockConfig, c: ClockValue, steps: seq<Step>)
    requires WellFormed(cfg) && ClockInv(cfg, c)
    ensures ClockInv(cfg, RunFrom(cfg, c, steps))
  {
    hide Apply, PortInv, Anchored, SingleSlave, WellFormed;
    if steps != [] {
      RunFromKeepsInv(cfg, c, steps[..|steps| - 1]);
      StepKeepsInv(cfg, RunFrom(cfg, c, steps[..|steps| - 1]), steps[|steps| - 1]);
    }
  }

  lemma InitialInv(cfg: ClockConfig)
    ensures ClockInv(cfg, Initial(cfg))
  {
  }

  /** The invariant holds after every run: at most one port of the clock is
      UNCALIBRATED or SLAVE, a following port knows its master, every record
      holds at most three messages, and stepsRemoved stays within 255. */
  lemma RunKeepsInv(cfg: ClockConfig, steps: seq<Step>)
    requires WellFormed(cfg)
    ensures ClockInv(cfg, Run(cfg, steps))
  {
    InitialInv(cfg);
    RunFromKeepsInv(cfg, Initial(cfg), steps);
  }

  /** The sender a decision selects, after any run, has announced at least
      three times since its record was created, and two of those are kept. */
  lemma SelectedSender(cfg: ClockConfig, steps: seq<Step>, now: int) returns (r: Record)
    requires WellFormed(cfg) && Chosen(cfg, Run(cfg, steps), now).best.Some?
    ensures var d := Chosen(cfg, Run(cfg, steps), now);
            BestOf(d.ports[d.best.value]) == Some(r)
    ensures |r.messages| == FOREIGN_MASTER_THRESHOLD && r.received >= 3 && r.dataset.stepsRemoved < 255
    ensures r.sender.clockIdentity != cfg.dds.clockIdentity
  {
    var c := Run(cfg, steps);
    RunKeepsInv(cfg, steps);
    var b := Chosen(cfg, c, now).best.value;
    r := BestRecord(cfg.ports[b], c.ports[b], now);
    BestKeepsInv(cfg.ports[b], c.ports[b], now);
  }

  // ---------------------------------------------------------------------
  // The two-level choice
  // ---------------------------------------------------------------------

  lemma {:induction false} ClockBestIsBest(profile: Profile, bests: seq<Option<Dataset>>, k: nat)
    requires k < |bests| && bests[k].Some?
    requires forall i, j | 0 <= i < |bests| && 0 <= j < |bests| && bests[i].Some? && bests[j].Some? ::
               Comparable(profile, bests[i].value, bests[j].value)
    ensures var b := ClockBest(Dscmp(profile), bests);
            b.Some? && Dscmp(profile)(bests[b.value].value, bests[k].value) >= 0
  {
    hide Comparable;
    var n := |bests| - 1;
    var before := ClockBest(Dscmp(profile), bests[..n]);
    assert forall i | 0 <= i < n :: bests[..n][i] == bests[i];
    if k < n {
      ClockBestIsBest(profile, bests[..n], k);
      if ClockBest(Dscmp(profile), bests) == Some(n) {
        CompareTransitive(profile, bests[n].value, bests[before.value].value, bests[k].value);
      }
    } else {
      CompareAntisymmetric(profile, bests[n], bests[n]);
      if before.Some? {
        CompareAntisymmetric(profile, bests[n], bests[before.value]);
      }
    }
  }

  /** A record of port i that can be chosen. */
  predicate Eligible(cfg: ClockConfig, c: ClockValue, i: nat, k: nat, now: int)
    requires |c.ports| == |cfg.ports|
  {
    i < |c.ports| && k < |c.ports[i].records| && !cfg.ports[i].masterOnly && Qualified(c.ports[i].records[k], now)
  }

  ghost predicate EligibleComparable(profile: Profile, cfg: ClockConfig, c: ClockValue, now: int)
    requires |c.ports| == |cfg.ports|
  {
    forall i: nat, k: nat, j: nat, l: nat | Eligible(cfg, c, i, k, now) && Eligible(cfg, c, j, l, now) ::
      Comparable(profile, Candidate(cfg.ports[i], c.ports[i].records[k]), Candidate(cfg.ports[j], c.ports[j].records[l]))
  }

  /** The best data set of a port is that of an eligible record. */
  lemma BestIsEligible(cfg: ClockConfig, c: ClockValue, i: nat, now: int) returns (k: nat)
    requires ClockInv(cfg, c) && i < |c.ports| && WithBest(cfg.ports[i], c.ports[i], now).best.Some?
    ensures Eligible(cfg, c, i, k, now)
    ensures BestDataset(WithBest(cfg.ports[i], c.ports[i], now)) == Some(Candidate(cfg.ports[i], c.ports[i].records[k]))
    ensures !cfg.ports[i].masterOnly && Scan(cfg.ports[i], c.ports[i].records, now).best == Some(k)
  {
    var rs := c.ports[i].records;
    ScanWinner(cfg.ports[i], rs, now);
    k := Scan(cfg.ports[i], rs, now).best.value;
    BestKeepsInv(cfg.ports[i], c.ports[i], now);
    FindDistinct(WithBest(cfg.ports[i], c.ports[i], now).records, k);
  }

  lemma PortComparable(profile: Profile, cfg: ClockConfig, c: ClockValue, now: int, i: nat)
    requires |c.ports| == |cfg.ports| && i < |c.ports| && !cfg.ports[i].masterOnly && EligibleComparable(profile, cfg, c, now)
    ensures AllComparable(profile, cfg.ports[i], c.ports[i].records, now)
  {
    hide Comparable, Candidate, Qualified;
    forall j, l | 0 <= j < |c.ports[i].records| && 0 <= l < |c.ports[i].records|
                  && Qualified(c.ports[i].records[j], now) && Qualified(c.ports[i].records[l], now)
      ensures Comparable(profile, Candidate(cfg.ports[i], c.ports[i].records[j]), Candidate(cfg.ports[i], c.ports[i].records[l]))
    {
      assert Eligible(cfg, c, i, j, now) && Eligible(cfg, c, i, l, now);
    }
  }

  lemma ChosenComparable(profile: Profile, cfg: ClockConfig, c: ClockValue, now: int, x: nat, y: nat)
    requires ClockInv(cfg, c) && EligibleComparable(profile, cfg, c, now)
    requires var bests := BestsOf(Chosen(cfg, c, now).ports);
             |bests| == |c.ports| && x < |bests| && y < |bests| && bests[x].Some? && bests[y].Some?
    ensures var bests := BestsOf(Chosen(cfg, c, now).ports);
            Comparable(profile, bests[x].value, bests[y].value)
  {
    hide Comparable, Candidate, Qualified, Scan;
    var kx := BestIsEligible(cfg, c, x, now);
    var ky := BestIsEligible(cfg, c, y, now);
  }

  /** The clock chooses a record that no eligible record of any port beats. */
  lemma DecisionChoosesBest(profile: Profile, cfg: ClockConfig, c: ClockValue, now: int, i: nat, k: nat)
    requires cfg.cmp == Dscmp(profile) && WellFormed(cfg) && ClockInv(cfg, c)
    requires EligibleComparable(profile, cfg, c, now) && Eligible(cfg, c, i, k, now)
    ensures var d := Chosen(cfg, c, now);
            && d.best.Some? && BestDataset(d.ports[d.best.value]).Some?
            && cfg.cmp(BestDataset(d.ports[d.best.value]).value,
                           Candidate(cfg.ports[i], c.ports[i].records[k])) >= 0
  {
    hide Comparable, Candidate, Scan, ClockBest;
    var d := Chosen(cfg, c, now);
    var bests := BestsOf(d.ports);
    PortComparable(profile, cfg, c, now, i);
    ScanIsBest(profile, cfg.ports[i], c.ports[i].records, now, k);
    var b := BestIsEligible(cfg, c, i, now);
    forall x: nat, y: nat | x < |bests| && y < |bests| && bests[x].Some? && bests[y].Some?
      ensures Comparable(profile, bests[x].value, bests[y].value)
    {
      ChosenComparable(profile, cfg, c, now, x, y);
    }
    ClockBestIsBest(profile, bests, i);
    var bb := BestIsEligible(cfg, c, d.best.value, now);
    assert Eligible(cfg, c, d.best.value, bb, now) && Eligible(cfg, c, i, b, now);
    CompareTransitive(profile, bests[d.best.value].value, bests[i].value, Candidate(cfg.ports[i], c.ports[i].records[k]));
  }
}
