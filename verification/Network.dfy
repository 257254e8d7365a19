/** Networks of boundary and transparent clocks at rest: what the state decisions
    of all clocks together amount to. */
module Network {
  import opened Octets
  import opened DataSets
  import opened Bmc
  import opened Fsm
  import opened ForeignMasters
  import opened PortBmc
  import opened PortTheory
  import opened ClockBmc
  import opened ClockTheory

  /** A clock, whether it is a transparent one (with tc_spanning_tree), and for each
      of its ports the clock and port at the other end. */
  datatype Node = Node(cfg: ClockConfig, clock: ClockValue, transparent: bool, peers: seq<(nat, nat)>)

  type Net = seq<Node>

  predicate IsPort(net: Net, n: nat, p: nat) {
    n < |net| && p < |net[n].peers|
  }

  /** Point-to-point links between different clocks with different identities;
      no clock is slave only, master only or of class 127 or less. */
  ghost predicate Topology(net: Net) {
    && (forall n | 0 <= n < |net| ::
          && |net[n].peers| == |net[n].cfg.ports| == |net[n].clock.ports| > 0
          && net[n].cfg.cmp == Dscmp(IEEE1588) && net[n].cfg.dds.clockQuality.clockClass > 127
          && WellFormed(net[n].cfg) && ClockInv(net[n].cfg, net[n].clock)
          && (forall p | 0 <= p < |net[n].cfg.ports| :: !net[n].cfg.ports[p].slaveOnly && !net[n].cfg.ports[p].masterOnly))
    && (forall n, m | 0 <= n < m < |net| :: Identity(net, n) != Identity(net, m))
    && (forall n: nat, p: nat | IsPort(net, n, p) ::
          var (m, q) := net[n].peers[p];
          m != n && IsPort(net, m, q) && net[m].peers[q] == (n, p))
    && (forall n: nat, p: nat, q: nat | IsPort(net, n, p) && IsPort(net, n, q) && p != q :: Pid(net, n, p) != Pid(net, n, q))
  }

  function Identity(net: Net, n: nat): ClockIdentity
    requires n < |net|
  {
    net[n].cfg.dds.clockIdentity
  }

  function Pid(net: Net, n: nat, p: nat): PortIdentity
    requires n < |net|
  {
    if p < |net[n].cfg.ports| then net[n].cfg.ports[p].identity else PortIdentity(Identity(net, n), 0)
  }

  function State(net: Net, n: nat, p: nat): PortState
    requires n < |net|
  {
    if p < |net[n].clock.ports| then net[n].clock.ports[p].state else INITIALIZING
  }

  function Steps(net: Net, n: nat): nat
    requires n < |net|
  {
    net[n].clock.stepsRemoved
  }

  /** Whether a port is in a state in which Announces leave by it. */
  predicate Transmits(net: Net, n: nat, p: nat)
    requires n < |net|
  {
    Transmitting(State(net, n, p))
  }

  function Bests(net: Net, n: nat, now: int): (bs: seq<Option<Dataset>>)
    requires n < |net| && |net[n].clock.ports| == |net[n].cfg.ports|
    ensures |bs| == |net[n].cfg.ports|
  {
    BestsOf(Chosen(net[n].cfg, net[n].clock, now).ports)
  }

  /** The fields of an Announce that the comparison uses. */
  datatype Content = Content(
    priority1: U8, identity: ClockIdentity, quality: ClockQuality, priority2: U8, stepsRemoved: nat, sender: PortIdentity)

  function ContentOf(d: Dataset): Content {
    Content(d.priority1, d.identity, d.quality, d.priority2, d.stepsRemoved, d.sender)
  }

  /** What port q of boundary clock m announces (port_tx_announce()). */
  function OwnAnnounce(net: Net, m: nat, q: nat): Content
    requires m < |net|
  {
    var dad := net[m].clock.dad;
    Content(dad.grandmasterPriority1, dad.grandmasterIdentity, dad.grandmasterClockQuality, dad.grandmasterPriority2,
            Steps(net, m), Pid(net, m, q))
  }

  /** Port b of transparent clock m passes on what it hears. */
  ghost predicate Upstream(net: Net, now: int, m: nat, b: nat)
    requires m < |net| && |net[m].clock.ports| == |net[m].cfg.ports|
  {
    b < |net[m].cfg.ports| && Synchronizing(State(net, m, b)) && Bests(net, m, now)[b].Some?
  }

  /** What transparent clock m relays: the Announces that come in by the port that
      synchronizes, of the same sender and one step further away (tc_forward()). */
  ghost function Relayed(net: Net, now: int, m: nat): Option<Content>
    requires m < |net| && |net[m].clock.ports| == |net[m].cfg.ports|
  {
    if exists b: nat :: Upstream(net, now, m, b) then
      var b: nat :| Upstream(net, now, m, b);
      var c := ContentOf(Bests(net, m, now)[b].value);
      Some(c.(stepsRemoved := c.stepsRemoved + 1))
    else None
  }

  /** The Announces that leave by port q of clock m, if any. */
  ghost function Sends(net: Net, now: int, m: nat, q: nat): Option<Content>
    requires m < |net| && |net[m].clock.ports| == |net[m].cfg.ports|
  {
    if !Transmits(net, m, q) then None
    else if net[m].transparent then Relayed(net, now, m)
    else Some(OwnAnnounce(net, m, q))
  }

  /** Port p of clock n knows what it should: its best data set is there exactly
      when Announces leave the far end that are fewer than 255 steps away, and
      equals what they say. */
  ghost predicate Informed(net: Net, now: int, n: nat, p: nat, best: Option<Dataset>)
    requires IsPort(net, n, p)
  {
    var (m, q) := net[n].peers[p];
    && IsPort(net, m, q) && |net[m].clock.ports| == |net[m].cfg.ports|
    && var sent := Sends(net, now, m, q);
       && (best.Some? <==> sent.Some? && sent.value.stepsRemoved < 255)
       && (best.Some? ==> ContentOf(best.value) == sent.value && best.value.receiver == Pid(net, n, p))
  }

  /** A port on which no timer that is running changes the state. */
  predicate AtRest(p: PortValue, best: Option<Dataset>) {
    && Enabled(p.state)
    && PtpFsm(p.state, QUALIFICATION_TIMEOUT_EXPIRES, false) == p.state
    && (best.None? ==> PtpFsm(p.state, ANNOUNCE_RECEIPT_TIMEOUT_EXPIRES, false) == p.state)
  }

  function AllOk(k: nat): (s: seq<bool>)
    ensures |s| == k
  {
    seq(k, _ => true)
  }

  /** A decision of clock n at some time changes neither the choice, nor a port
      state, nor what the clock announces. */
  ghost predicate Quiet(net: Net, n: nat, now: int)
    requires Topology(net) && n < |net|
  {
    var cfg, c := net[n].cfg, net[n].clock;
    var d := Chosen(cfg, c, now);
    var e := Decision(cfg, c, now, AllOk(|c.ports|));
    && d.bestId == c.bestId
    && e.dad == c.dad && e.stepsRemoved == c.stepsRemoved
    && (forall p {:trigger e.ports[p]} | 0 <= p < |c.ports| :: e.ports[p].state == c.ports[p].state)
    && (forall p {:trigger AtRest(c.ports[p], BestDataset(d.ports[p]))} | 0 <= p < |c.ports| ::
          AtRest(c.ports[p], BestDataset(d.ports[p])))
  }

  /** No clock wants to change anything, and every port knows what it should. */
  ghost predicate Resting(net: Net, now: int) {
    && Topology(net)
    && (forall n {:trigger Quiet(net, n, now)} | 0 <= n < |net| :: Quiet(net, n, now))
    && (forall n: nat, p: nat | IsPort(net, n, p) :: Informed(net, now, n, p, Bests(net, n, now)[p]))
  }

  lemma TopologyAt(net: Net, n: nat)
    requires Topology(net) && n < |net|
    ensures WellFormed(net[n].cfg) && ClockInv(net[n].cfg, net[n].clock)
    ensures |net[n].peers| == |net[n].cfg.ports| == |net[n].clock.ports| > 0 && net[n].cfg.cmp == Dscmp(IEEE1588)
    ensures net[n].cfg.dds.clockQuality.clockClass > 127
    ensures forall p | 0 <= p < |net[n].cfg.ports| :: !net[n].cfg.ports[p].slaveOnly && !net[n].cfg.ports[p].masterOnly
  {
  }

  lemma PortsMatch(net: Net)
    requires Topology(net)
    ensures forall n | 0 <= n < |net| :: |net[n].peers| == |net[n].cfg.ports| == |net[n].clock.ports|
  {
    hide ClockInv, WellFormed;
  }

  lemma RestingAt(net: Net, now: int, n: nat, p: nat)
    requires Resting(net, now) && IsPort(net, n, p)
    ensures n < |net| && Quiet(net, n, now)
    ensures p < |Bests(net, n, now)| && Informed(net, now, n, p, Bests(net, n, now)[p])
    ensures var (m, q) := net[n].peers[p]; m < |net| && IsPort(net, m, q)
  {
    hide Quiet, Informed, Bests;
  }

  /** The same for boundary clocks alone. */
  ghost predicate Quiescent(net: Net, now: int) {
    Resting(net, now) && forall n | 0 <= n < |net| :: !net[n].transparent
  }

  // ---------------------------------------------------------------------
  // One clock at rest
  // ---------------------------------------------------------------------

  function BestPort(net: Net, n: nat, now: int): (b: Option<nat>)
    requires n < |net| && |net[n].clock.ports| == |net[n].cfg.ports|
    ensures b.Some? ==> b.value < |net[n].cfg.ports| && Bests(net, n, now)[b.value].Some?
  {
    ClockBest(Dscmp(IEEE1588), Bests(net, n, now))
  }

  /** A clock with these best data sets considers itself the grandmaster. */
  predicate Leading(own: Dataset, bests: seq<Option<Dataset>>) {
    var b := ClockBest(Dscmp(IEEE1588), bests);
    b.None? || DscmpSets(own, bests[b.value].value) > 0
  }

  predicate Root(net: Net, n: nat, now: int)
    requires n < |net| && |net[n].clock.ports| == |net[n].cfg.ports|
  {
    Leading(DefaultDataset(net[n].cfg.dds), Bests(net, n, now))
  }

  /** On an enabled port a recommendation does what the machine says. */
  lemma DispatchIsMachine(cfg: PortConfig, p: PortValue, rec: PortState, mdiff: bool, initOk: bool)
    requires Enabled(p.state) && HasMachine(cfg) && !cfg.slaveOnly
    requires Recommendable(rec)
    ensures Dispatched(cfg, p, EventOf(rec), mdiff, initOk).state == PtpFsm(p.state, EventOf(rec), mdiff)
  {
  }

  lemma SameBests(ps: seq<PortValue>, qs: seq<PortValue>)
    requires |ps| == |qs| && forall i | 0 <= i < |ps| :: ps[i].records == qs[i].records && ps[i].best == qs[i].best
    ensures BestsOf(ps) == BestsOf(qs)
  {
    assert forall i | 0 <= i < |ps| :: BestDataset(ps[i]) == BestDataset(qs[i]);
  }

  /** What the turn of a port recommended rec with best record r does. */
  ghost predicate TurnEffect(cfg: ClockConfig, e: ClockValue, f: ClockValue, i: nat, rec: PortState, r: Option<Record>, s: PortState)
  {
    && i < |e.ports| == |f.ports| && f.ports == e.ports[i := f.ports[i]] && f.ports[i].state == s
    && (if rec == GRAND_MASTER then f.dad == OwnParent(cfg.dds) && f.stepsRemoved == 0
        else if rec == SLAVE && r.Some? && r.value.messages != [] then
          f.dad == SlaveParent(r.value.dataset.sender, r.value.messages[0])
          && f.stepsRemoved == 1 + r.value.dataset.stepsRemoved
        else f.dad == e.dad && f.stepsRemoved == e.stepsRemoved)
  }

  /** The state port i is in after its turn. */
  function StateAfter(cfg: ClockConfig, d: ClockValue, i: nat, freshBest: bool, initOk: bool): PortState
    requires i < |d.ports| == |cfg.ports|
  {
    Dispatched(cfg.ports[i], d.ports[i], EventOf(Recommended(cfg, d, i)), freshBest, initOk).state
  }

  /** When the turn of port i comes, what it is recommended is still the same. */
  lemma TurnOf(cfg: ClockConfig, d: ClockValue, i: nat, freshBest: bool, initOks: seq<bool>)
    requires WellFormed(cfg) && DecisionReady(cfg, d) && i < |d.ports| == |initOks|
    ensures TurnEffect(cfg, DecidedUpTo(cfg, d, i, freshBest, initOks), DecidedUpTo(cfg, d, i + 1, freshBest, initOks),
                       i, Recommended(cfg, d, i), BestOf(d.ports[i]), StateAfter(cfg, d, i, freshBest, initOks[i]))
  {
    var e := DecidedUpTo(cfg, d, i, freshBest, initOks);
    Turns(cfg, d, i, freshBest, initOks);
    SameBests(d.ports, e.ports);
    var f := Decided(cfg, e, i, freshBest, initOks[i]);
    assert f.ports[i].state == StateAfter(cfg, d, i, freshBest, initOks[i]);
  }

  /** The end of a sequence of turns of all ports: every state follows that
      port's recommendation, and the data sets follow them together. */
  lemma {:induction false} AllTurns(
    cfg: ClockConfig, es: seq<ClockValue>, recs: seq<PortState>, rs: seq<Option<Record>>, ss: seq<PortState>)
    requires |es| == |recs| + 1 && |recs| == |rs| == |ss|
    requires forall k | 0 <= k < |recs| :: TurnEffect(cfg, es[k], es[k + 1], k, recs[k], rs[k], ss[k])
    requires forall i, j | 0 <= i < |recs| && 0 <= j < |recs| && recs[i] == SLAVE ::
               recs[j] != GRAND_MASTER && (recs[j] == SLAVE ==> i == j)
    ensures forall i | 0 <= i < |recs| :: i < |es[|recs|].ports| && es[|recs|].ports[i].state == ss[i]
    ensures forall i | 0 <= i < |recs| && recs[i] == GRAND_MASTER ::
              es[|recs|].dad == OwnParent(cfg.dds) && es[|recs|].stepsRemoved == 0
    ensures forall i | 0 <= i < |recs| && recs[i] == SLAVE && rs[i].Some? && rs[i].value.messages != [] ::
              && es[|recs|].dad == SlaveParent(rs[i].value.dataset.sender, rs[i].value.messages[0])
              && es[|recs|].stepsRemoved == 1 + rs[i].value.dataset.stepsRemoved
  {
    if recs != [] {
      var n := |recs| - 1;
      var es', recs', rs', ss' := es[..n + 1], recs[..n], rs[..n], ss[..n];
      forall k | 0 <= k < n ensures TurnEffect(cfg, es'[k], es'[k + 1], k, recs'[k], rs'[k], ss'[k]) {
        assert TurnEffect(cfg, es[k], es[k + 1], k, recs[k], rs[k], ss[k]);
      }
      AllTurns(cfg, es', recs', rs', ss');
      assert TurnEffect(cfg, es[n], es[n + 1], n, recs[n], rs[n], ss[n]);
      assert forall i | 0 <= i < n :: recs'[i] == recs[i] && rs'[i] == rs[i] && ss'[i] == ss[i];
    }
  }

  /** A port at rest whose recommendation changes nothing transmits exactly
      when it is recommended to be a master. */
  lemma RestingState(p: PortValue, best: Option<Dataset>, rec: PortState)
    requires AtRest(p, best) && PtpFsm(p.state, EventOf(rec), false) == p.state
    requires Recommendable(rec)
    requires rec == LISTENING ==> best.None? && p.state == LISTENING
    ensures rec != LISTENING
    ensures (p.state == MASTER || p.state == GRAND_MASTER) <==> (rec == GRAND_MASTER || rec == MASTER)
    ensures Synchronizing(p.state) <==> rec == SLAVE
  {
  }

  /** What a decision on these best data sets amounts to: a root announces itself on
      every port; any other clock follows one port, is silent on those that compare
      as better by topology, transmits on the rest, and announces its master's
      grandmaster one step further away. */
  ghost predicate Concluded(net: Net, n: nat, bests: seq<Option<Dataset>>)
    requires n < |net|
  {
    var b := ClockBest(Dscmp(IEEE1588), bests);
    var dad := net[n].clock.dad;
    if Leading(DefaultDataset(net[n].cfg.dds), bests) then
      && dad == OwnParent(net[n].cfg.dds) && Steps(net, n) == 0
      && (forall p | 0 <= p < |bests| :: Transmits(net, n, p))
    else
      var d := bests[b.value].value;
      && dad == ParentDS(d.sender, d.identity, d.quality, d.priority1, d.priority2)
      && Steps(net, n) == 1 + d.stepsRemoved
      && (forall p | 0 <= p < |bests| ::
            Transmits(net, n, p) <==> p != b.value && Compare(Dscmp(IEEE1588), bests[b.value], bests[p]) != A_BETTER_TOPO)
  }

  ghost predicate ClockSettled(net: Net, n: nat, now: int)
    requires Topology(net) && n < |net|
  {
    Concluded(net, n, Bests(net, n, now))
  }

  /** Whom the recommendations of one decision single out. */
  lemma RecommendedFacts(cfg: ClockConfig, d: ClockValue)
    requires DecisionReady(cfg, d)
    ensures forall i | 0 <= i < |d.ports| ::
              var r := Recommended(cfg, d, i);
              && Recommendable(r)
              && (r == LISTENING ==> d.ports[i].state == LISTENING)
              && (r == SLAVE ==> d.best == Some(i) && SteadyBest(d.ports[i]))
    ensures forall i, j | 0 <= i < |d.ports| && 0 <= j < |d.ports| && Recommended(cfg, d, i) == SLAVE ::
              Recommended(cfg, d, j) != GRAND_MASTER
  {
    forall i: nat, j: nat | i < |d.ports| && j < |d.ports|
      ensures !(Recommended(cfg, d, i) == SLAVE && Recommended(cfg, d, j) == GRAND_MASTER)
    {
      NoSlaveBesideGrandMaster(cfg, d.best, BestsOf(d.ports), i, j, d.ports[i].state, d.ports[j].state);
    }
    forall i: nat | i < |d.ports| ensures Recommended(cfg, d, i) == SLAVE ==> d.best == Some(i) {
      RecommendationFacts(cfg, d.best, BestsOf(d.ports), i, d.ports[i].state);
    }
  }

  /** The whole second loop. */
  lemma AllDecided(cfg: ClockConfig, d: ClockValue, freshBest: bool, oks: seq<bool>) returns (e: ClockValue)
    requires WellFormed(cfg) && DecisionReady(cfg, d) && |oks| == |d.ports|
    ensures e == DecidedUpTo(cfg, d, |d.ports|, freshBest, oks)
    ensures forall i | 0 <= i < |d.ports| :: e.ports[i].state == StateAfter(cfg, d, i, freshBest, oks[i])
    ensures forall i | 0 <= i < |d.ports| && Recommended(cfg, d, i) == GRAND_MASTER ::
              e.dad == OwnParent(cfg.dds) && e.stepsRemoved == 0
    ensures forall i | 0 <= i < |d.ports| && Recommended(cfg, d, i) == SLAVE ::
              var r := BestOf(d.ports[i]);
              && r.Some? && r.value.messages != []
              && e.dad == SlaveParent(r.value.dataset.sender, r.value.messages[0])
              && e.stepsRemoved == 1 + r.value.dataset.stepsRemoved
  {
    var es, recs, rs, ss := TurnSequence(cfg, d, freshBest, oks);
    RecommendedFacts(cfg, d);
    AllTurns(cfg, es, recs, rs, ss);
    e := es[|d.ports|];
  }

  lemma TurnSequence(cfg: ClockConfig, d: ClockValue, freshBest: bool, oks: seq<bool>)
    returns (es: seq<ClockValue>, recs: seq<PortState>, rs: seq<Option<Record>>, ss: seq<PortState>)
    requires WellFormed(cfg) && DecisionReady(cfg, d) && |oks| == |d.ports|
    ensures |es| == |d.ports| + 1 && |recs| == |rs| == |ss| == |d.ports|
    ensures es[|d.ports|] == DecidedUpTo(cfg, d, |d.ports|, freshBest, oks)
    ensures forall k | 0 <= k < |d.ports| :: TurnEffect(cfg, es[k], es[k + 1], k, recs[k], rs[k], ss[k])
    ensures forall i | 0 <= i < |d.ports| ::
              recs[i] == Recommended(cfg, d, i) && rs[i] == BestOf(d.ports[i]) && ss[i] == StateAfter(cfg, d, i, freshBest, oks[i])
  {
    es, recs, rs, ss := Tabulated(cfg, d, freshBest, oks);
    forall k | 0 <= k < |d.ports| ensures TurnEffect(cfg, es[k], es[k + 1], k, recs[k], rs[k], ss[k]) {
      TurnOf(cfg, d, k, freshBest, oks);
    }
  }

  lemma Tabulated(cfg: ClockConfig, d: ClockValue, freshBest: bool, oks: seq<bool>)
    returns (es: seq<ClockValue>, recs: seq<PortState>, rs: seq<Option<Record>>, ss: seq<PortState>)
    requires |oks| == |d.ports| == |cfg.ports|
    ensures |es| == |d.ports| + 1 && |recs| == |rs| == |ss| == |d.ports|
    ensures forall k | 0 <= k <= |d.ports| :: es[k] == DecidedUpTo(cfg, d, k, freshBest, oks)
    ensures forall i | 0 <= i < |d.ports| :: recs[i] == Recommended(cfg, d, i)
    ensures forall i | 0 <= i < |d.ports| :: rs[i] == BestOf(d.ports[i])
    ensures forall i | 0 <= i < |d.ports| :: ss[i] == StateAfter(cfg, d, i, freshBest, oks[i])
  {
    var N := |d.ports|;
    es := seq(N + 1, k requires 0 <= k <= N => DecidedUpTo(cfg, d, k, freshBest, oks));
    recs := seq(N, i requires 0 <= i < N => Recommended(cfg, d, i));
    rs := seq(N, i requires 0 <= i < N => BestOf(d.ports[i]));
    ss := seq(N, i requires 0 <= i < N => StateAfter(cfg, d, i, freshBest, oks[i]));
  }

  lemma ReadyPorts(cfg: ClockConfig, d: ClockValue)
    requires DecisionReady(cfg, d)
    ensures |d.ports| == |cfg.ports|
  {
  }

  /** What a quiet clock's decision says about its ports and data sets. */
  lemma QuietStates(net: Net, n: nat, now: int) returns (d: ClockValue)
    requires Topology(net) && n < |net| && Quiet(net, n, now)
    ensures d == Chosen(net[n].cfg, net[n].clock, now) && DecisionReady(net[n].cfg, d)
    ensures forall i | 0 <= i < |d.ports| ::
              && d.ports[i].state == net[n].clock.ports[i].state == StateAfter(net[n].cfg, d, i, false, true)
    ensures forall i | 0 <= i < |d.ports| && Recommended(net[n].cfg, d, i) == GRAND_MASTER ::
              net[n].clock.dad == OwnParent(net[n].cfg.dds) && Steps(net, n) == 0
    ensures forall i | 0 <= i < |d.ports| && Recommended(net[n].cfg, d, i) == SLAVE ::
              var r := BestOf(d.ports[i]);
              && r.Some? && r.value.messages != []
              && net[n].clock.dad == SlaveParent(r.value.dataset.sender, r.value.messages[0])
              && Steps(net, n) == 1 + r.value.dataset.stepsRemoved
  {
    hide Chosen, StateAfter, Recommended, AtRest, BestOf, BestDataset, DecidedUpTo, ClockInv, DecisionReady, SteadyBest;
    var cfg, c := net[n].cfg, net[n].clock;
    d := Chosen(cfg, c, now);
    ChosenFacts(cfg, c, now);
    ChosenIsReady(cfg, c, now);
    ReadyPorts(cfg, d);
    var e := AllDecided(cfg, d, false, AllOk(|d.ports|));
    assert forall i | 0 <= i < |d.ports| :: e.ports[i].state == StateAfter(cfg, d, i, false, true);
  }

  /** The recommendations of a quiet clock stand behind its port states. */
  lemma QuietRecommendations(net: Net, n: nat, now: int, d: ClockValue, i: nat)
    requires Topology(net) && n < |net| && Quiet(net, n, now) && i < |d.ports|
    requires d == Chosen(net[n].cfg, net[n].clock, now) && DecisionReady(net[n].cfg, d)
    requires d.ports[i].state == net[n].clock.ports[i].state == StateAfter(net[n].cfg, d, i, false, true)
    ensures var rec := Recommended(net[n].cfg, d, i);
            && (rec == GRAND_MASTER || rec == MASTER || rec == PASSIVE || rec == SLAVE)
            && (Transmits(net, n, i) <==> rec == GRAND_MASTER || rec == MASTER)
            && (Synchronizing(State(net, n, i)) <==> rec == SLAVE)
  {
    assert AtRest(net[n].clock.ports[i], BestDataset(d.ports[i]));
    AtRestRecommendation(net[n].cfg, d, i, net[n].clock.ports[i]);
  }

  /** A port at rest, p, that the recommendation leaves in its state. */
  lemma AtRestRecommendation(cfg: ClockConfig, d: ClockValue, i: nat, p: PortValue)
    requires i < |d.ports| && DecisionReady(cfg, d) && |d.ports| == |cfg.ports|
    requires HasMachine(cfg.ports[i]) && !cfg.ports[i].slaveOnly
    requires AtRest(p, BestDataset(d.ports[i])) && p.state == d.ports[i].state == StateAfter(cfg, d, i, false, true)
    ensures var rec := Recommended(cfg, d, i);
            && (rec == GRAND_MASTER || rec == MASTER || rec == PASSIVE || rec == SLAVE)
            && ((p.state == MASTER || p.state == GRAND_MASTER) <==> rec == GRAND_MASTER || rec == MASTER)
            && (Synchronizing(p.state) <==> rec == SLAVE)
  {
    RecommendationFacts(cfg, d.best, BestsOf(d.ports), i, p.state);
    var rec := Recommended(cfg, d, i);
    DispatchIsMachine(cfg.ports[i], d.ports[i], rec, false, true);
    if rec == LISTENING {
      NoListening(cfg, d, i);
    }
    RestingState(p, BestDataset(d.ports[i]), rec);
  }

  lemma NoListening(cfg: ClockConfig, d: ClockValue, i: nat)
    requires i < |d.ports| && Recommended(cfg, d, i) == LISTENING
    ensures d.ports[i].state == LISTENING && BestDataset(d.ports[i]).None?
  {
  }

  /** Recommendations in terms of the best data sets alone. */
  lemma RecommendedIs(cfg: ClockConfig, d: ClockValue, i: nat)
    requires i < |d.ports| && cfg.cmp == Dscmp(IEEE1588) && cfg.dds.clockQuality.clockClass > 127
    requires d.best == ClockBest(cfg.cmp, BestsOf(d.ports))
    ensures var rec := Recommended(cfg, d, i);
            var bests := BestsOf(d.ports);
            var root := d.best.None? || DscmpSets(DefaultDataset(cfg.dds), bests[d.best.value].value) > 0;
            rec != LISTENING ==>
              if root then rec == GRAND_MASTER
              else if d.best == Some(i) then rec == SLAVE
              else rec == (if Compare(cfg.cmp, bests[d.best.value], bests[i]) == A_BETTER_TOPO then PASSIVE else MASTER)
  {
  }

  /** The states and data sets of clock n follow the recommendations of the choice d. */
  ghost predicate Obeys(net: Net, n: nat, d: ClockValue)
    requires n < |net|
  {
    var cfg := net[n].cfg;
    && (forall i | 0 <= i < |d.ports| && Recommended(cfg, d, i) == GRAND_MASTER ::
          net[n].clock.dad == OwnParent(cfg.dds) && Steps(net, n) == 0)
    && (forall i | 0 <= i < |d.ports| && Recommended(cfg, d, i) == SLAVE ::
          var r := BestOf(d.ports[i]);
          && r.Some? && r.value.messages != []
          && net[n].clock.dad == SlaveParent(r.value.dataset.sender, r.value.messages[0])
          && Steps(net, n) == 1 + r.value.dataset.stepsRemoved)
    && (forall i | 0 <= i < |d.ports| ::
          && Recommended(cfg, d, i) != LISTENING
          && (Transmits(net, n, i) <==> Recommended(cfg, d, i) == GRAND_MASTER || Recommended(cfg, d, i) == MASTER))
  }

  lemma QuietIsSettled(net: Net, n: nat, now: int)
    requires Topology(net) && n < |net| && Quiet(net, n, now)
    ensures ClockSettled(net, n, now)
  {
    var d := QuietStates(net, n, now);
    forall i | 0 <= i < |d.ports|
      ensures Recommended(net[n].cfg, d, i) != LISTENING
      ensures Transmits(net, n, i) <==> Recommended(net[n].cfg, d, i) == GRAND_MASTER || Recommended(net[n].cfg, d, i) == MASTER
    {
      QuietRecommendations(net, n, now, d, i);
    }
    ObedienceConcludes(net, n, net[n].clock, now);
  }

  /** A clock that obeys what was recommended in state c. */
  lemma ObedienceConcludes(net: Net, n: nat, c: ClockValue, now: int)
    requires Topology(net) && n < |net| && ClockInv(net[n].cfg, c) && Obeys(net, n, Chosen(net[n].cfg, c, now))
    ensures Concluded(net, n, BestsOf(Chosen(net[n].cfg, c, now).ports))
  {
    var cfg := net[n].cfg;
    var d := Chosen(cfg, c, now);
    ChosenIsReady(cfg, c, now);
    if Leading(DefaultDataset(cfg.dds), BestsOf(d.ports)) {
      forall i: nat | i < |d.ports| ensures Recommended(cfg, d, i) == GRAND_MASTER {
        RecommendedIs(cfg, d, i);
      }
      assert Recommended(cfg, d, 0) == GRAND_MASTER;
    } else {
      FollowerConcludes(net, n, c, now);
    }
  }

  lemma FollowerConcludes(net: Net, n: nat, c: ClockValue, now: int)
    requires Topology(net) && n < |net| && ClockInv(net[n].cfg, c)
    requires var d := Chosen(net[n].cfg, c, now);
             Obeys(net, n, d) && DecisionReady(net[n].cfg, d) && !Leading(DefaultDataset(net[n].cfg.dds), BestsOf(d.ports))
    ensures Concluded(net, n, BestsOf(Chosen(net[n].cfg, c, now).ports))
  {
    var cfg, d := net[n].cfg, Chosen(net[n].cfg, c, now);
    var b := d.best.value;
    forall i: nat | i < |d.ports|
      ensures Transmits(net, n, i) <==>
              i != b && Compare(Dscmp(IEEE1588), BestsOf(d.ports)[b], BestsOf(d.ports)[i]) != A_BETTER_TOPO
    {
      RecommendedIs(cfg, d, i);
    }
    RecommendedIs(cfg, d, b);
    BestKeepsInv(cfg.ports[b], c.ports[b], now);
    var r := BestRecord(cfg.ports[b], c.ports[b], now);
    assert BestOf(d.ports[b]) == Some(r);
  }
}
