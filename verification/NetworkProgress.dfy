/** Rounds as lists of clock steps: exactly when the clocks can make one, that they can
    once what they heard before has expired, and that so they come to rest. */
module NetworkProgress {
  import opened Octets
  import opened DataSets
  import opened Bmc
  import opened Fsm
  import opened ForeignMasters
  import opened PortBmc
  import opened PortTheory
  import opened PortForgetting
  import opened PortListening
  import opened PortHearing
  import opened ClockBmc
  import opened ClockTheory
  import opened Network
  import opened NetworkTheory
  import opened NetworkStages
  import opened NetworkSettling
  import opened NetworkConvergence

  // ---------------------------------------------------------------------
  // The steps of a round
  // ---------------------------------------------------------------------

  function Timers(k: nat): seq<Step> {
    seq(k, p requires 0 <= p < k => PortEvent(p, QUALIFICATION_TIMEOUT_EXPIRES, true))
  }

  /** A decision, after which all qualification timers expire. */
  function Deciding(k: nat, now: int): seq<Step> {
    [Decide(now, AllOk(k))] + Timers(k)
  }

  /** Announce m says what leaves the far end of port p. */
  predicate Speaks(d: Net, n: nat, p: nat, m: Announce)
    requires IsPort(d, n, p)
  {
    var (f, q) := d[n].peers[p];
    && f < |d| && Transmits(d, f, q) && p < |d[n].cfg.ports|
    && ContentOf(ToDataset(m, d[n].cfg.ports[p])) == OwnAnnounce(d, f, q)
  }

  /** What can happen to clock n before the next decision: it receives what its
      neighbours send when it is sent, announce receipt timers that run expire, and the
      clock is synchronized to its master or loses that again. */
  predicate Listening(d: Net, n: nat, since: int, until: int, s: Step) {
    match s
    case Receive(p, m, now, _) => IsPort(d, n, p) && since <= now <= until && m.host == now && Speaks(d, n, p, m)
    case AnnounceTimeout(p, _, _) => IsPort(d, n, p) && Waiting(State(d, n, p))
    case PortEvent(p, event, _) => IsPort(d, n, p) && (event == MASTER_CLOCK_SELECTED || event == SYNCHRONIZATION_FAULT)
    case Decide(_, _) => false
  }

  ghost predicate AllListening(d: Net, n: nat, since: int, until: int, steps: seq<Step>) {
    forall s | s in steps :: Listening(d, n, since, until, s)
  }

  /** Each clock of a takes its steps to where it is in b: it decides, and then listens. */
  ghost predicate Taken(a: Net, nowA: int, b: Net, nowB: int, heard: seq<seq<Step>>)
    requires Topology(a)
  {
    && |b| == |a| == |heard|
    && (forall n | 0 <= n < |a| ::
          && b[n] == a[n].(clock := RunFrom(a[n].cfg, a[n].clock, Deciding(|a[n].clock.ports|, nowA) + heard[n]))
          && AllListening(AllDecide(a, nowA), n, nowA, nowB, heard[n]))
  }

  // ---------------------------------------------------------------------
  // Deciding
  // ---------------------------------------------------------------------

  lemma TimerTurns(cfg: PortConfig, p: PortValue, i: nat)
    requires Ordinary(cfg) && Enabled(p.state)
    ensures PortApply(cfg, p, PortEvent(i, QUALIFICATION_TIMEOUT_EXPIRES, true))
         == p.(state := PtpFsm(p.state, QUALIFICATION_TIMEOUT_EXPIRES, false))
  {
  }

  /** All ports are those of a boundary clock, and work. */
  ghost predicate Working(cfg: ClockConfig, c: ClockValue) {
    && WellFormed(cfg) && |c.ports| == |cfg.ports|
    && forall i | 0 <= i < |c.ports| :: Ordinary(cfg.ports[i]) && Enabled(c.ports[i].state)
  }

  lemma {:induction false} TimersQualify(cfg: ClockConfig, e: ClockValue, k: nat)
    requires Working(cfg, e) && k <= |e.ports|
    ensures var f := RunFrom(cfg, e, Timers(k));
            && f == e.(ports := f.ports)
            && forall i | 0 <= i < |f.ports| ::
                 f.ports[i] == if i < k then AfterTimers(e).ports[i] else e.ports[i]
  {
    hide Apply, PortApply, Ordinary, WellFormed, PtpFsm;
    if k > 0 {
      TimersQualify(cfg, e, k - 1);
      assert Timers(k)[..k - 1] == Timers(k - 1);
      var f := RunFrom(cfg, e, Timers(k - 1));
      ApplyIsLocal(cfg, f, k - 1, Timers(k)[k - 1]);
      TimerTurns(cfg.ports[k - 1], f.ports[k - 1], k - 1);
    }
  }

  lemma RunsOne(cfg: ClockConfig, c: ClockValue, s: Step)
    requires |c.ports| == |cfg.ports|
    ensures RunFrom(cfg, c, [s]) == Apply(cfg, c, s)
  {
    hide Apply;
    assert [s][..0] == [];
  }

  lemma DecidingDecides(cfg: ClockConfig, c: ClockValue, now: int)
    requires |c.ports| == |cfg.ports| && Working(cfg, Decision(cfg, c, now, AllOk(|c.ports|)))
    ensures RunFrom(cfg, c, Deciding(|c.ports|, now)) == AfterDecision(cfg, c, now)
  {
    hide Decision, Timers, Working;
    var e := Decision(cfg, c, now, AllOk(|c.ports|));
    RunsOne(cfg, c, Decide(now, AllOk(|c.ports|)));
    RunInParts(cfg, c, [Decide(now, AllOk(|c.ports|))], Timers(|c.ports|));
    TimersQualify(cfg, e, |e.ports|);
    assert RunFrom(cfg, e, Timers(|e.ports|)).ports == AfterTimers(e).ports;
  }

  lemma IsOrdinary(net: Net, n: nat, p: nat)
    requires Topology(net) && IsPort(net, n, p)
    ensures p < |net[n].cfg.ports| == |net[n].clock.ports| && Ordinary(net[n].cfg.ports[p])
    ensures PortInv(net[n].cfg.ports[p], net[n].clock.ports[p])
  {
    TopologyAt(net, n);
    hide Topology, PortInv;
  }

  lemma WorkedBefore(s: PortState)
    requires Enabled(PtpFsm(s, QUALIFICATION_TIMEOUT_EXPIRES, false))
    ensures Enabled(s)
  {
  }

  lemma DecideIsReady(net: Net, now: int)
    requires Ready(net)
    ensures Ready(AllDecide(net, now)) && Topology(net) && SameTopology(net, AllDecide(net, now))
  {
    hide Topology, AllDecide, Recommended, Chosen;
    ReadyTopology(net);
    DecideKeepsTopology(net, now);
    DecideIsBoundary(net, now);
    forall n: nat, p: nat | IsPort(AllDecide(net, now), n, p) ensures Enabled(State(AllDecide(net, now), n, p)) {
      assert IsPort(net, n, p);
      var d, news := DecidedState(net, now, n, p);
      TurnedFollows(State(net, n, p), Recommended(net[n].cfg, d, p), news);
    }
  }

  /** The steps of a decision lead where the round says. */
  lemma DecidingIs(a: Net, now: int, n: nat)
    requires Ready(a) && n < |a|
    ensures Topology(a) && |a[n].clock.ports| == |a[n].cfg.ports|
    ensures RunFrom(a[n].cfg, a[n].clock, Deciding(|a[n].clock.ports|, now)) == AllDecide(a, now)[n].clock
  {
    hide Topology, ClockInv, PortInv, Decision, Ordinary, PtpFsm, WellFormed, Ready;
    DecideIsReady(a, now);
    ReadyTopology(a);
    TopologyAt(a, n);
    var e := Decision(a[n].cfg, a[n].clock, now, AllOk(|a[n].clock.ports|));
    var d := AllDecide(a, now);
    forall p: nat | p < |e.ports| ensures Ordinary(a[n].cfg.ports[p]) && Enabled(e.ports[p].state) {
      IsOrdinary(a, n, p);
      ReadyAt(d, n, p);
      assert d[n].clock == AfterTimers(e);
      WorkedBefore(e.ports[p].state);
    }
    DecidingDecides(a[n].cfg, a[n].clock, now);
  }

  // ---------------------------------------------------------------------
  // When what was heard before has expired
  // ---------------------------------------------------------------------

  /** The Announce that port q of clock m sends. */
  function AnnounceOf(d: Net, m: nat, q: nat, now: int): Announce
    requires m < |d| && Steps(d, m) < 255
  {
    var dad := d[m].clock.dad;
    Announce(Pid(d, m, q), dad.grandmasterPriority1, dad.grandmasterIdentity, dad.grandmasterClockQuality,
             dad.grandmasterPriority2, Steps(d, m), 0, now)
  }

  /** What comes in by port p of clock n. */
  function Incoming(d: Net, n: nat, p: nat, now: int): Option<Announce>
    requires IsPort(d, n, p)
  {
    var (m, q) := d[n].peers[p];
    if m < |d| && Transmits(d, m, q) && Steps(d, m) < 255 then Some(AnnounceOf(d, m, q, now)) else None
  }

  /** The best data set that port p is to have, which no time appears in. */
  function Expected(d: Net, n: nat, p: nat): Option<Dataset>
    requires IsPort(d, n, p)
  {
    if p >= |d[n].cfg.ports| then None
    else match Incoming(d, n, p, 0)
      case Some(m) => Some(ToDataset(m, d[n].cfg.ports[p]))
      case None => None
  }

  /** What every port still knows then does not keep it from what it is to know. */
  ghost predicate Expiring(d: Net, now: int) {
    forall n: nat, p: nat | IsPort(d, n, p) && p < |d[n].cfg.ports| && p < |d[n].clock.ports| ::
      Outlived(d[n].cfg.ports[p], d[n].clock.ports[p], Expected(d, n, p), now)
  }

  // ---------------------------------------------------------------------
  // Then there is a round
  // ---------------------------------------------------------------------

  function ListenAt(d: Net, n: nat, p: nat, now: int): seq<Step>
    requires IsPort(d, n, p)
  {
    match Incoming(d, n, p, now)
    case Some(m) => Thrice(Receive(p, m, now, true))
    case None => Timeouts(p, State(d, n, p))
  }

  function ListenUpTo(d: Net, n: nat, k: nat, now: int): seq<Step>
    requires n < |d| && k <= |d[n].peers|
  {
    if k == 0 then [] else ListenUpTo(d, n, k - 1, now) + ListenAt(d, n, k - 1, now)
  }

  lemma IncomingIsForeign(d: Net, n: nat, p: nat, now: int)
    requires Topology(d) && IsPort(d, n, p)
    ensures var a := Incoming(d, n, p, now);
            a.Some? ==> a.value.stepsRemoved < 255 && Current(a.value, now)
                        && a.value.source.clockIdentity != d[n].cfg.ports[p].identity.clockIdentity
  {
    hide ClockInv;
    PeerOf(d, n, p);
    var m, q := d[n].peers[p].0, d[n].peers[p].1;
    DifferentIdentities(d, n, m);
    assert WellFormed(d[n].cfg) && WellFormed(d[m].cfg);
  }

  lemma ListensAt(d: Net, n: nat, p: nat, since: int, now: int)
    requires Topology(d) && IsPort(d, n, p) && since <= now
    ensures AllListening(d, n, since, now, ListenAt(d, n, p, now))
    ensures forall s | s in ListenAt(d, n, p, now) :: About(s, p)
  {
    TopologyAt(d, n);
    hide Topology;
  }

  lemma {:induction false} ListensUpTo(d: Net, n: nat, k: nat, since: int, now: int)
    requires Topology(d) && n < |d| && k <= |d[n].peers| && since <= now
    ensures AllListening(d, n, since, now, ListenUpTo(d, n, k, now))
  {
    hide Topology, Listening, ListenAt;
    if k > 0 {
      ListensUpTo(d, n, k - 1, since, now);
      ListensAt(d, n, k - 1, since, now);
    }
  }

  /** The first k ports have taken their steps. */
  ghost predicate Advanced(d: Net, n: nat, k: nat, now: int, e: ClockValue)
    requires n < |d| && |d[n].peers| == |d[n].cfg.ports| == |d[n].clock.ports|
  {
    && e == d[n].clock.(ports := e.ports) && |e.ports| == |d[n].clock.ports|
    && forall p | 0 <= p < |e.ports| ::
         e.ports[p] == if p < k then PortRun(d[n].cfg.ports[p], d[n].clock.ports[p], ListenAt(d, n, p, now)) else d[n].clock.ports[p]
  }

  lemma OneMoreAdvanced(d: Net, n: nat, k: nat, now: int, e: ClockValue)
    requires n < |d| && k < |d[n].peers| == |d[n].cfg.ports| == |d[n].clock.ports| && Advanced(d, n, k, now, e)
    ensures Advanced(d, n, k + 1, now, e.(ports := e.ports[k := PortRun(d[n].cfg.ports[k], e.ports[k], ListenAt(d, n, k, now))]))
  {
    hide PortRun, ListenAt;
  }

  /** The steps about one port leave the others alone. */
  lemma {:induction false} ListenedUpTo(d: Net, n: nat, k: nat, now: int)
    requires Topology(d) && n < |d| && k <= |d[n].peers| == |d[n].cfg.ports| == |d[n].clock.ports| && WellFormed(d[n].cfg)
    ensures Advanced(d, n, k, now, RunFrom(d[n].cfg, d[n].clock, ListenUpTo(d, n, k, now)))
  {
    hide Topology, ListenAt, Apply, PortRun, WellFormed;
    if k > 0 {
      hide Advanced;
      var before := ListenUpTo(d, n, k - 1, now);
      var e := RunFrom(d[n].cfg, d[n].clock, before);
      ListenedUpTo(d, n, k - 1, now);
      ListensAt(d, n, k - 1, now, now);
      RunInParts(d[n].cfg, d[n].clock, before, ListenAt(d, n, k - 1, now));
      RunIsLocal(d[n].cfg, e, k - 1, ListenAt(d, n, k - 1, now));
      OneMoreAdvanced(d, n, k - 1, now, e);
    }
  }

  /** A port that has listened knows what it is to know. */
  lemma ListenedPort(d: Net, n: nat, p: nat, now: int)
    requires Ready(d) && Topology(d) && Expiring(d, now) && IsPort(d, n, p) && p < |d[n].cfg.ports| == |d[n].clock.ports|
    ensures var q := PortRun(d[n].cfg.ports[p], d[n].clock.ports[p], ListenAt(d, n, p, now));
            && BestDataset(WithBest(d[n].cfg.ports[p], q, now)) == Expected(d, n, p)
            && q.state == if Expected(d, n, p).None? then PtpFsm(State(d, n, p), ANNOUNCE_RECEIPT_TIMEOUT_EXPIRES, false)
                          else State(d, n, p)
  {
    hide Topology, Ready, PortInv, Ordinary, Outlived, PortRun, WithBest, BestDataset, PtpFsm, Timeouts, Thrice;
    ReadyAt(d, n, p);
    IsOrdinary(d, n, p);
    IncomingIsForeign(d, n, p, now);
    var cfg, was, heard := d[n].cfg.ports[p], d[n].clock.ports[p], Incoming(d, n, p, now);
    if heard.Some? {
      ThreeAreEnough(cfg, was, p, heard.value, now);
    } else {
      WaitsInVain(cfg, was, p, now);
    }
  }

  lemma SendsOwn(d: Net, now: int, m: nat, q: nat)
    requires Ready(d) && m < |d|
    ensures |d[m].clock.ports| == |d[m].cfg.ports|
    ensures Sends(d, now, m, q) == if Transmits(d, m, q) then Some(OwnAnnounce(d, m, q)) else None
  {
    ReadyTopology(d);
    TopologyAt(d, m);
    hide Topology, Relayed, Transmits;
  }

  lemma ExpectsRight(d: Net, now: int, n: nat, p: nat)
    requires Ready(d) && IsPort(d, n, p) && |d[n].peers| == |d[n].cfg.ports|
    ensures Informed(d, now, n, p, Expected(d, n, p))
  {
    hide Topology, Ready, Sends, Transmits;
    ReadyTopology(d);
    PeerOf(d, n, p);
    SendsOwn(d, now, d[n].peers[p].0, d[n].peers[p].1);
  }

  /** What taking the steps makes of each clock: what it decided, and what it heard then. */
  lemma TakenAt(a: Net, nowA: int, b: Net, nowB: int, heard: seq<seq<Step>>, n: nat)
    requires Ready(a) && Topology(a) && Taken(a, nowA, b, nowB, heard) && n < |a|
    ensures var d := AllDecide(a, nowA)[n];
            && |d.clock.ports| == |d.cfg.ports| && ClockInv(d.cfg, d.clock) && WellFormed(d.cfg)
            && b[n] == d.(clock := RunFrom(d.cfg, d.clock, heard[n])) && ClockInv(d.cfg, b[n].clock)
  {
    hide Topology, Ready, ClockInv, Deciding, AfterDecision, WellFormed;
    DecideIsReady(a, nowA);
    ReadyTopology(AllDecide(a, nowA));
    TopologyAt(AllDecide(a, nowA), n);
    DecidingIs(a, nowA, n);
    RunInParts(a[n].cfg, a[n].clock, Deciding(|a[n].clock.ports|, nowA), heard[n]);
    RunFromKeepsInv(a[n].cfg, AllDecide(a, nowA)[n].clock, heard[n]);
  }

  lemma TakenTopology(a: Net, nowA: int, b: Net, nowB: int, heard: seq<seq<Step>>)
    requires Ready(a) && Topology(a) && Taken(a, nowA, b, nowB, heard)
    ensures var d := AllDecide(a, nowA);
            Ready(d) && Topology(d) && Topology(b) && SameTopology(d, b)
  {
    hide Topology, Ready, ClockInv, AllDecide, RunFrom, WellFormed;
    var d := AllDecide(a, nowA);
    DecideIsReady(a, nowA);
    ReadyTopology(d);
    forall n: nat | n < |b| ensures n < |d| && b[n].cfg == d[n].cfg && b[n].peers == d[n].peers && ClockInv(b[n].cfg, b[n].clock) {
      TakenAt(a, nowA, b, nowB, heard, n);
    }
    InvIsTopology(d, b);
  }

  /** The steps that make a round. */
  lemma StepsOfRound(a: Net, nowA: int, nowB: int) returns (b: Net, heard: seq<seq<Step>>)
    requires Ready(a) && Topology(a) && nowA <= nowB
    ensures var d := AllDecide(a, nowA); |b| == |a| == |heard| == |d| && Taken(a, nowA, b, nowB, heard)
    ensures forall n | 0 <= n < |a| :: heard[n] == ListenUpTo(AllDecide(a, nowA), n, |AllDecide(a, nowA)[n].peers|, nowB)
    ensures forall n | 0 <= n < |a| :: SoonExpire(heard[n], nowB)
  {
    hide Topology, Ready, AllDecide, RunFrom, ListenUpTo, Deciding, AllListening, SoonExpire;
    PortsMatch(a);
    DecideIsReady(a, nowA);
    var d := AllDecide(a, nowA);
    ReadyTopology(d);
    heard := seq(|a|, n requires 0 <= n < |a| => ListenUpTo(d, n, |d[n].peers|, nowB));
    b := seq(|a|, n requires 0 <= n < |a| =>
      a[n].(clock := RunFrom(a[n].cfg, a[n].clock, Deciding(|a[n].clock.ports|, nowA) + heard[n])));
    forall n: nat | n < |a| ensures AllListening(d, n, nowA, nowB, heard[n]) && SoonExpire(heard[n], nowB) {
      HeardExpires(d, n, |d[n].peers|, nowB);
      ListensUpTo(d, n, |d[n].peers|, nowA, nowB);
    }
  }

  ghost predicate SoonExpire(steps: seq<Step>, now: int) {
    forall s | s in steps && s.Receive? :: Expired(s.m, now + LIFETIME)
  }

  lemma PortHeardExpires(d: Net, n: nat, p: nat, now: int)
    requires IsPort(d, n, p)
    ensures SoonExpire(ListenAt(d, n, p, now), now)
  {
    hide Expired, Transmits;
    var m := Incoming(d, n, p, now);
    if m.Some? {
      EverySecond(m.value);
    }
  }

  lemma {:induction false} HeardExpires(d: Net, n: nat, k: nat, now: int)
    requires n < |d| && k <= |d[n].peers|
    ensures SoonExpire(ListenUpTo(d, n, k, now), now)
  {
    hide ListenAt, Expired;
    if k > 0 {
      HeardExpires(d, n, k - 1, now);
      PortHeardExpires(d, n, k - 1, now);
    }
  }

  /** If what the ports knew before has expired in time, or is worse than what they
      hear, then the clocks can take steps that make a round. */
  lemma RoundByExpiry(a: Net, nowA: int, nowB: int) returns (b: Net, heard: seq<seq<Step>>)
    requires Ready(a) && Topology(a) && nowA <= nowB && Expiring(AllDecide(a, nowA), nowB)
    ensures Taken(a, nowA, b, nowB, heard) && Round(a, nowA, b, nowB) && Ready(b)
    ensures |heard| == |a| && forall n | 0 <= n < |a| :: SoonExpire(heard[n], nowB)
  {
    hide Topology, Ready, Expiring, AllDecide, ListenUpTo, Taken, ListenedAt, SoonExpire;
    b, heard := StepsOfRound(a, nowA, nowB);
    var d := AllDecide(a, nowA);
    TakenTopology(a, nowA, b, nowB, heard);
    PortsMatch(d);
    forall n: nat | n < |d|
      ensures b[n].transparent == d[n].transparent
      ensures b[n].clock.dad == d[n].clock.dad && b[n].clock.stepsRemoved == d[n].clock.stepsRemoved
      ensures b[n].clock.bestId == d[n].clock.bestId
      ensures forall p: nat | IsPort(d, n, p) :: ListenedAt(d, b, nowB, n, p)
    {
      TakenAt(a, nowA, b, nowB, heard, n);
      ListenedUpTo(d, n, |d[n].peers|, nowB);
      forall p: nat | IsPort(d, n, p) ensures ListenedAt(d, b, nowB, n, p) {
        Hears(d, b, nowB, n, p);
      }
    }
    RoundWakes(a, nowA, b, nowB);
  }

  /** Port p after its steps. */
  lemma Hears(d: Net, b: Net, now: int, n: nat, p: nat)
    requires Ready(d) && Topology(d) && Topology(b) && SameTopology(d, b) && Expiring(d, now) && IsPort(d, n, p)
    requires p < |d[n].cfg.ports| == |d[n].clock.ports| == |b[n].clock.ports| == |d[n].peers|
    requires b[n].clock.ports[p] == PortRun(d[n].cfg.ports[p], d[n].clock.ports[p], ListenAt(d, n, p, now))
    ensures ListenedAt(d, b, now, n, p)
  {
    hide Topology, Ready, Expiring, Informed, PortRun, WithBest, BestDataset, ListenAt, Chosen, Expected;
    ListenedPort(d, n, p, now);
    ExpectsRight(d, now, n, p);
    BestsAt(b, n, now, p);
    ChosenAt(b, n, now, p);
  }

  lemma ChosenAt(b: Net, n: nat, now: int, p: nat)
    requires n < |b| && |b[n].clock.ports| == |b[n].cfg.ports| && p < |b[n].cfg.ports|
    ensures Chosen(b[n].cfg, b[n].clock, now).ports[p] == WithBest(b[n].cfg.ports[p], b[n].clock.ports[p], now)
  {
    hide WithBest, BestsOf, ClockBest;
  }

  // ---------------------------------------------------------------------
  // Otherwise there is none
  // ---------------------------------------------------------------------

  lemma ListensToPort(d: Net, n: nat, p: nat, since: int, until: int, s: Step)
    requires IsPort(d, n, p) && p < |d[n].cfg.ports| == |d[n].clock.ports| && Listening(d, n, since, until, s) && s.port == p
    ensures Listens(d[n].cfg.ports[p], d[n].clock.ports[p], Expected(d, n, p), s)
  {
  }

  lemma OtherPort(cfg: ClockConfig, c: ClockValue, p: nat, s: Step)
    requires WellFormed(cfg) && |c.ports| == |cfg.ports| && p < |c.ports| && !s.Decide? && s.port < |c.ports| && s.port != p
    ensures Apply(cfg, c, s).ports[p] == c.ports[p]
  {
    hide Apply, PortApply, WellFormed;
    ApplyIsLocal(cfg, c, s.port, s);
  }

  lemma {:induction false} ListeningDrifts(d: Net, n: nat, p: nat, since: int, until: int, steps: seq<Step>)
    requires Ready(d) && Topology(d) && IsPort(d, n, p) && AllListening(d, n, since, until, steps)
    requires |d[n].peers| == |d[n].cfg.ports| == |d[n].clock.ports| && WellFormed(d[n].cfg) && ClockInv(d[n].cfg, d[n].clock)
    ensures Drifted(d[n].clock.ports[p], RunFrom(d[n].cfg, d[n].clock, steps).ports[p], SenderOf(Expected(d, n, p)))
  {
    hide Ready, Topology, Apply, PortApply, WellFormed, Ordinary, Listening, Listens, Expected, RecordInv, SingleSlave, Anchored;
    if steps == [] {
      DriftsNot(d[n].clock.ports[p], SenderOf(Expected(d, n, p)));
    } else {
      hide Drifted;
      var before, s := steps[..|steps| - 1], steps[|steps| - 1];
      var c := RunFrom(d[n].cfg, d[n].clock, before);
      ListeningDrifts(d, n, p, since, until, before);
      RunFromKeepsInv(d[n].cfg, d[n].clock, before);
      assert s in steps && Listening(d, n, since, until, s);
      IsListening(d, n, since, until, s);
      if s.port == p {
        IsOrdinary(d, n, p);
        ReadyAt(d, n, p);
        ListensToPort(d, n, p, since, until, s);
        ApplyIsLocal(d[n].cfg, c, p, s);
        assert PortInv(d[n].cfg.ports[p], c.ports[p]);
        StepDrifts(d[n].cfg.ports[p], d[n].clock.ports[p], c.ports[p], Expected(d, n, p), s);
      } else {
        OtherPort(d[n].cfg, c, p, s);
      }
    }
  }

  lemma DriftsNot(p: PortValue, sender: Option<PortIdentity>)
    ensures Drifted(p, p, sender)
  {
  }

  lemma IsListening(d: Net, n: nat, since: int, until: int, s: Step)
    requires Listening(d, n, since, until, s)
    ensures !s.Decide? && IsPort(d, n, s.port)
  {
  }

  /** What a port that knows what it should knows. */
  lemma InformedIsExpected(d: Net, b: Net, now: int, n: nat, p: nat, best: Option<Dataset>)
    requires Ready(d) && IsPort(d, n, p) && p < |d[n].cfg.ports| == |d[n].peers| && Informed(d, now, n, p, best)
    requires best.Some? ==> best.value.localPriority == d[n].cfg.ports[p].localPriority
    ensures best == Expected(d, n, p)
  {
    hide Ready, Topology, Sends;
    SendsOwn(d, now, d[n].peers[p].0, d[n].peers[p].1);
  }

  lemma BestIsLocal(cfg: PortConfig, q: PortValue, now: int)
    requires PortInv(cfg, q) && !cfg.masterOnly
    ensures var best := BestDataset(WithBest(cfg, q, now));
            best.Some? ==> best.value.localPriority == cfg.localPriority
  {
    hide RecordInv, Scan, WithBest;
    BestIsChosen(cfg, q, now);
    ScanWinner(cfg, q.records, now);
  }

  /** What the ports still know can be compared. */
  ghost predicate AllConsistent(d: Net, now: int) {
    forall n: nat, p: nat | IsPort(d, n, p) && p < |d[n].cfg.ports| && p < |d[n].clock.ports| ::
      Consistent(d[n].cfg.ports[p], d[n].clock.ports[p], Expected(d, n, p), now)
  }

  lemma WaitedRole(s: PortState, t: PortState, best: Option<Dataset>)
    requires Waited(s, t, best) && best.Some?
    ensures SameRole(t, s)
  {
  }

  lemma PortHasOutlived(a: Net, nowA: int, b: Net, nowB: int, heard: seq<seq<Step>>, n: nat, p: nat)
    requires Ready(a) && Topology(a) && Taken(a, nowA, b, nowB, heard) && Round(a, nowA, b, nowB)
    requires var d := AllDecide(a, nowA);
             && IsPort(d, n, p) && p < |d[n].cfg.ports| && p < |d[n].clock.ports|
             && Consistent(d[n].cfg.ports[p], d[n].clock.ports[p], Expected(d, n, p), nowB)
    ensures var d := AllDecide(a, nowA);
              Outlived(d[n].cfg.ports[p], d[n].clock.ports[p], Expected(d, n, p), nowB)
  {
    hide Ready, Topology, AllDecide, Taken, Outlived, Expected, Consistent, Drifted, Ordinary, WithBest, BestDataset, Chosen,
         Informed, ClockInv, PortInv, Waited, WellFormed;
    var d := AllDecide(a, nowA);
    TakenTopology(a, nowA, b, nowB, heard);
    TakenAt(a, nowA, b, nowB, heard, n);
    TopologyAt(d, n);
    IsOrdinary(d, n, p);
    IsOrdinary(b, n, p);
    assert AllListening(d, n, nowA, nowB, heard[n]) by {
      HeardAll(a, nowA, b, nowB, heard, n);
    }
    ListeningDrifts(d, n, p, nowA, nowB, heard[n]);
    assert ListenedAt(d, b, nowB, n, p);
    BestsAt(b, n, nowB, p);
    ChosenAt(b, n, nowB, p);
    var cfg, was, after := d[n].cfg.ports[p], d[n].clock.ports[p], b[n].clock.ports[p];
    BestIsLocal(cfg, after, nowB);
    InformedIsExpected(d, b, nowB, n, p, BestDataset(WithBest(cfg, after, nowB)));
    if Expected(d, n, p).Some? {
      WaitedRole(State(d, n, p), State(b, n, p), Expected(d, n, p));
      BestHasOutlived(cfg, was, after, Expected(d, n, p), nowB);
    } else {
      NobodyHasOutlived(cfg, was, after, nowB);
    }
  }

  lemma HeardAll(a: Net, nowA: int, b: Net, nowB: int, heard: seq<seq<Step>>, n: nat)
    requires Topology(a) && Taken(a, nowA, b, nowB, heard) && n < |a|
    ensures n < |heard| && AllListening(AllDecide(a, nowA), n, nowA, nowB, heard[n])
  {
    hide Topology, AllDecide, AllListening, RunFrom, Deciding;
  }

  /** The clocks can take steps that make a round exactly if, on every port, what it
      knew before has expired by then or is worse than what it hears, and a port that
      hears nothing knows nobody but a best master whom it stops waiting for. */
  lemma RoundExactly(a: Net, nowA: int, nowB: int)
    requires Ready(a) && Topology(a) && nowA <= nowB && AllConsistent(AllDecide(a, nowA), nowB)
    ensures (exists b, heard :: Taken(a, nowA, b, nowB, heard) && Round(a, nowA, b, nowB)) <==> Expiring(AllDecide(a, nowA), nowB)
  {
    hide Ready, Topology, AllDecide, Taken, Round, Outlived, Expected, Consistent;
    if Expiring(AllDecide(a, nowA), nowB) {
      hide Expiring;
      var b, heard := RoundByExpiry(a, nowA, nowB);
    } else {
      forall b, heard | Taken(a, nowA, b, nowB, heard) ensures !Round(a, nowA, b, nowB) {
        if Round(a, nowA, b, nowB) {
          forall n: nat, p: nat
            | IsPort(AllDecide(a, nowA), n, p) && p < |AllDecide(a, nowA)[n].cfg.ports| && p < |AllDecide(a, nowA)[n].clock.ports|
            ensures Outlived(AllDecide(a, nowA)[n].cfg.ports[p], AllDecide(a, nowA)[n].clock.ports[p],
                             Expected(AllDecide(a, nowA), n, p), nowB)
          {
            PortHasOutlived(a, nowA, b, nowB, heard, n, p);
          }
        }
      }
    }
  }

  // ---------------------------------------------------------------------
  // Runs of steps
  // ---------------------------------------------------------------------

  /** Whatever any port knows it will have forgotten by then. */
  ghost predicate NetExpires(net: Net, t: int) {
    forall n | 0 <= n < |net| :: ClockExpires(net[n].clock, t)
  }

  lemma DecidedExpires(a: Net, now: int, t: int)
    requires Ready(a) && Topology(a) && NetExpires(a, t)
    ensures NetExpires(AllDecide(a, now), t)
  {
    hide Ready, Topology, AllDecide, ClockExpires, RunFrom, ClockInv, WellFormed;
    forall n: nat | n < |a| ensures ClockExpires(AllDecide(a, now)[n].clock, t) {
      TopologyAt(a, n);
      DecidingIs(a, now, n);
      RunExpires(a[n].cfg, a[n].clock, Deciding(|a[n].clock.ports|, now), t);
    }
  }

  lemma NetOutlives(d: Net, now: int)
    requires NetExpires(d, now)
    ensures Expiring(d, now)
  {
    hide Expires, Outlived, Expected;
    forall n: nat, p: nat | IsPort(d, n, p) && p < |d[n].cfg.ports| && p < |d[n].clock.ports|
      ensures Outlived(d[n].cfg.ports[p], d[n].clock.ports[p], Expected(d, n, p), now)
    {
      assert ClockExpires(d[n].clock, now);
      ExpiryOutlives(d[n].cfg.ports[p], d[n].clock.ports[p], Expected(d, n, p), now);
    }
  }

  lemma TakenExpires(a: Net, nowA: int, b: Net, nowB: int, heard: seq<seq<Step>>)
    requires Ready(a) && Topology(a) && Taken(a, nowA, b, nowB, heard) && NetExpires(a, nowB)
    requires |heard| == |a| && forall n | 0 <= n < |a| :: SoonExpire(heard[n], nowB)
    ensures NetExpires(b, nowB + LIFETIME)
  {
    hide Ready, Topology, AllDecide, ClockExpires, ClockInv, WellFormed;
    DecidedExpires(a, nowA, nowB);
    forall n: nat | n < |b| ensures ClockExpires(b[n].clock, nowB + LIFETIME) {
      TakenAt(a, nowA, b, nowB, heard, n);
      var d := AllDecide(a, nowA)[n];
      ExpiresLater(d.clock, nowB, nowB + LIFETIME);
      RunExpires(d.cfg, d.clock, heard[n], nowB + LIFETIME);
    }
  }

  /** The first round begins now, and ends once everything is forgotten; each
      further one takes as long as an Announce lives. */
  function Timetable(now: int, first: int, k: nat): (times: seq<int>)
    ensures |times| == k + 1
  {
    [now] + seq(k, i => first + i * LIFETIME)
  }

  ghost predicate AllTaken(nets: seq<Net>, times: seq<int>, heard: seq<seq<seq<Step>>>) {
    && |nets| == |times| == |heard| + 1
    && forall i | 0 <= i < |heard| :: Topology(nets[i]) && Taken(nets[i], times[i], nets[i + 1], times[i + 1], heard[i])
  }

  lemma TimesGoOn(now: int, first: int, k: nat)
    requires now <= first && k > 0
    ensures Timetable(now, first, k) == Timetable(now, first, k - 1) + [first + (k - 1) * LIFETIME]
    ensures Timetable(now, first, k)[k - 1] <= first + (k - 1) * LIFETIME
  {
  }

  /** Clocks whose ports work can go on taking steps in rounds. */
  lemma {:induction false} RunsGoOn(net: Net, now: int, first: int, k: nat) returns (nets: seq<Net>, heard: seq<seq<seq<Step>>>)
    requires Ready(net) && now <= first && NetExpires(net, first)
    ensures |nets| == k + 1 && nets[0] == net && Rounds(nets, Timetable(now, first, k))
    ensures AllTaken(nets, Timetable(now, first, k), heard)
    ensures NetExpires(nets[k], first + k * LIFETIME)
  {
    hide Ready, Round, Topology, Taken, NetExpires, Timetable;
    ReadyTopology(net);
    if k == 0 {
      nets, heard := [net], [];
      assert |Timetable(now, first, 0)| == 1;
    } else {
      var before, steps := RunsGoOn(net, now, first, k - 1);
      TimesGoOn(now, first, k);
      nets, heard := OneMoreRound(before, Timetable(now, first, k - 1), steps, first + (k - 1) * LIFETIME);
      assert first + (k - 1) * LIFETIME + LIFETIME == first + k * LIFETIME;
    }
  }

  lemma OneMoreRound(before: seq<Net>, times: seq<int>, steps: seq<seq<seq<Step>>>, now: int)
    returns (nets: seq<Net>, heard: seq<seq<seq<Step>>>)
    requires Rounds(before, times) && AllTaken(before, times, steps)
    requires times[|times| - 1] <= now && NetExpires(before[|before| - 1], now)
    ensures |nets| == |before| + 1 && nets[0] == before[0] && Rounds(nets, times + [now])
    ensures AllTaken(nets, times + [now], heard) && NetExpires(nets[|before|], now + LIFETIME)
  {
    hide Ready, Round, Topology, Taken, NetExpires, SoonExpire, Expiring;
    var k := |before| - 1;
    var a, nowA := before[k], times[k];
    StaysReady(before, times, k);
    DecidedExpires(a, nowA, now);
    NetOutlives(AllDecide(a, nowA), now);
    var b, h := RoundByExpiry(a, nowA, now);
    TakenExpires(a, nowA, b, now, h);
    nets, heard := before + [b], steps + [h];
    forall i | 0 <= i < |nets| - 1
      ensures Round(nets[i], (times + [now])[i], nets[i + 1], (times + [now])[i + 1])
      ensures Topology(nets[i]) && Taken(nets[i], (times + [now])[i], nets[i + 1], (times + [now])[i + 1], heard[i])
    {
      if i < k {
        RoundAt(before, times, i);
        assert Taken(before[i], times[i], before[i + 1], times[i + 1], steps[i]);
      }
    }
  }

  /** From any state in which all ports work and whatever is known expires, the clocks
      of a network of k layers can take steps that bring it to rest. */
  lemma StepsToRest(net: Net, now: int, first: int, k: nat) returns (nets: seq<Net>, heard: seq<seq<seq<Step>>>)
    requires Ready(net) && Remaining(net, k) == {} && now <= first && NetExpires(net, first)
    ensures |nets| == RoundsFor(k) + 1 && nets[0] == net && AllTaken(nets, Timetable(now, first, RoundsFor(k)), heard)
    ensures Quiescent(nets[RoundsFor(k)], first + (RoundsFor(k) - 1) * LIFETIME) && SameTopology(net, nets[RoundsFor(k)])
  {
    hide Ready, Quiescent, Rounds, Remaining, NetExpires, Topology;
    nets, heard := RunsGoOn(net, now, first, RoundsFor(k));
    var times := Timetable(now, first, RoundsFor(k));
    RoundsLengths(nets, times);
    StaysReady(nets, times, RoundsFor(k));
    Converges(nets, times, k, RoundsFor(k));
  }

  // ---------------------------------------------------------------------
  // Whether everything expires
  // ---------------------------------------------------------------------

  /** No stored Announce claims an interval of 2^32 seconds or more. */
  ghost predicate Mortal(net: Net) {
    forall n: nat, p: nat, r, m | n < |net| && p < |net[n].clock.ports| && r in net[n].clock.ports[p].records && m in r.messages ::
      m.logMessageInterval <= 31
  }

  lemma {:induction false} AllExpire(ms: set<Announce>) returns (t: int)
    requires forall m | m in ms :: m.logMessageInterval <= 31
    ensures forall m | m in ms :: Expired(m, t)
  {
    if ms == {} {
      t := 0;
    } else {
      var m :| m in ms;
      hide Expired;
      var before := AllExpire(ms - {m});
      ExpiresExactly(m);
      var u :| Expired(m, u);
      t := if before < u then u else before;
      forall x | x in ms ensures Expired(x, t) {
        ExpiredLater(x, if x == m then u else before, t);
      }
    }
  }

  /** There is a time by which every port will have forgotten whatever it knows exactly
      if no stored Announce claims such an interval. */
  lemma ForgetsExactly(net: Net)
    ensures (exists t :: NetExpires(net, t)) <==> Mortal(net)
  {
    if t :| NetExpires(net, t) {
      forall n: nat, p: nat, r, m | n < |net| && p < |net[n].clock.ports| && r in net[n].clock.ports[p].records && m in r.messages
        ensures m.logMessageInterval <= 31
      {
        assert ClockExpires(net[n].clock, t) && Expires(net[n].clock.ports[p], t) && RecordExpires(r, t);
        hide Expired;
        assert Expired(m, t);
        ExpiresExactly(m);
      }
    }
    if Mortal(net) {
      hide Expired;
      var all := set n: nat, p: nat, r, m
        | n < |net| && p < |net[n].clock.ports| && r in net[n].clock.ports[p].records && m in r.messages :: m;
      var t := AllExpire(all);
      assert NetExpires(net, t);
    }
  }

  // ---------------------------------------------------------------------
  // A state of rest
  // ---------------------------------------------------------------------

  function AllSilent(net: Net): (s: Net)
    ensures |s| == |net|
  {
    seq(|net|, n requires 0 <= n < |net| =>
      net[n].(clock := net[n].clock.(ports := seq(|net[n].clock.ports|, p => Silent(LISTENING)))))
  }

  lemma SilentIsReady(net: Net, t: int)
    requires Ready(net)
    ensures Ready(AllSilent(net)) && SameTopology(net, AllSilent(net)) && NetExpires(AllSilent(net), t)
  {
    hide Topology, WellFormed;
    var s := AllSilent(net);
    ReadyTopology(net);
    PortsMatch(net);
    forall n: nat | n < |s| ensures ClockInv(s[n].cfg, s[n].clock) {
      TopologyAt(net, n);
    }
    InvIsTopology(net, s);
  }

  /** Every network has a state of rest. */
  lemma RestExists(net: Net, now: int) returns (rest: Net)
    requires Ready(net)
    ensures Quiescent(rest, now) && SameTopology(net, rest)
  {
    hide Ready, Quiescent, Remaining, Topology, NetExpires, AllTaken, AllSilent;
    var k := |net|;
    var first := now - (RoundsFor(k) - 1) * LIFETIME;
    ReadyTopology(net);
    NoneRemain(net);
    SilentIsReady(net, first);
    SameRemaining(net, AllSilent(net), k);
    var nets, heard := StepsToRest(AllSilent(net), first, first, k);
    rest := nets[RoundsFor(k)];
  }
}
