/** Networks at rest: lines of clocks of any length up to the one in which the
    number of steps is exhausted. */
module NetworkChain {
  import opened Octets
  import opened DataSets
  import opened Bmc
  import opened Fsm
  import opened ForeignMasters
  import opened PortBmc
  import opened PortTheory
  import opened ClockBmc
  import opened ClockTheory
  import opened PortHearing
  import opened Network
  import opened NetworkTheory
  import ForwardingTheory
  import TransparentClock

  /** The last clock of the longest line is 256 links away from the first. */
  const LONGEST := 257

  const QUALITY := ClockQuality(248, 0xFE, 0xFFFF)

  type Place = i: nat | i < LONGEST

  function Id(i: Place): ClockIdentity {
    [i / 0x100, i % 0x100, 0, 0, 0, 0, 0, 0]
  }

  function Dds(i: Place): DefaultDS {
    DefaultDS(128, Id(i), QUALITY, 128, 128)
  }

  /** Port 0 of a clock leads up, port 1 down, but the first clock has only one. */
  function PortAt(i: Place, number: U16): PortConfig {
    PortConfig(PortIdentity(Id(i), number), 128, false, false, Dscmp(IEEE1588), false, PtpFsm)
  }

  function Down(i: Place): nat {
    if i == 0 then 0 else 1
  }

  /** A line of n clocks, of which those in tcs are transparent. */
  datatype Line = Line(n: nat, tcs: set<nat>)

  ghost predicate Proper(l: Line) {
    2 <= l.n <= LONGEST && forall i | i in l.tcs :: 0 < i < l.n - 1
  }

  /** Who announces what clock i hears: the next boundary clock above it. */
  function Source(l: Line, i: Place): PortIdentity
    requires i > 0
  {
    if i - 1 in l.tcs && i > 1 then Source(l, i - 1) else PortIdentity(Id(i - 1), (Down(i - 1) + 1) as U16)
  }

  function Sent(source: PortIdentity, gm: Place, steps: U16): Announce {
    Announce(source, 128, Id(gm), QUALITY, 128, steps, 0, 0)
  }

  /** What clock i has heard from above. */
  function FromAbove(l: Line, i: Place): Announce
    requires i > 0
  {
    Sent(Source(l, i), 0, i - 1)
  }

  /** The last clock of the longest line is too far away to hear the first one. */
  predicate Deaf(i: nat) {
    i == LONGEST - 1
  }

  predicate Top(i: nat) {
    i == 0 || Deaf(i)
  }

  function Config(l: Line, i: Place): ClockConfig {
    ClockConfig(Dds(i), if 0 < i < l.n - 1 then [PortAt(i, 1), PortAt(i, 2)] else [PortAt(i, 1)], Dscmp(IEEE1588))
  }

  /** The port below clock i: clock 255 of the longest line hears the last clock. */
  function Below(l: Line, i: Place): PortValue {
    if i + 1 == LONGEST - 1 && l.n == LONGEST then
      Hearing(MASTER, Sent(PortIdentity(Id(i + 1), 1), i + 1, 0), PortAt(i, 2))
    else Silent(MASTER)
  }

  function TopClock(i: Place): ClockValue {
    ClockValue([Silent(GRAND_MASTER)], None, Id(i), OwnParent(Dds(i)), 0)
  }

  function FollowerPorts(l: Line, i: Place): seq<PortValue>
    requires i > 0
  {
    var up := Hearing(SLAVE, FromAbove(l, i), PortAt(i, 1));
    if i < l.n - 1 then [up, Below(l, i)] else [up]
  }

  function Follower(l: Line, i: Place): ClockValue
    requires i > 0
  {
    ClockValue(FollowerPorts(l, i), Some(0), Id(0), SlaveParent(Source(l, i), FromAbove(l, i)), i)
  }

  function Clock(l: Line, i: Place): ClockValue {
    if Top(i) then TopClock(i) else Follower(l, i)
  }

  function Peers(l: Line, i: Place): seq<(nat, nat)> {
    if i == 0 then [(1, 0)]
    else if i < l.n - 1 then [(i - 1, Down(i - 1)), (i + 1, 0)]
    else [(i - 1, Down(i - 1))]
  }

  function NodeAt(l: Line, i: Place): Node {
    Node(Config(l, i), Clock(l, i), i in l.tcs, Peers(l, i))
  }

  function Chain(l: Line): (net: Net)
    requires l.n <= LONGEST
    ensures |net| == l.n
  {
    seq(l.n, i requires 0 <= i < l.n => NodeAt(l, i))
  }

  // ---------------------------------------------------------------------
  // Identities
  // ---------------------------------------------------------------------

  lemma FirstIsBetter(i: Place)
    requires i > 0
    ensures Memcmp(Id(0), Id(i)) == -1 && Memcmp(Id(i), Id(0)) == 1
  {
    var a, b := Id(0), Id(i);
    MemcmpAntisymmetric(a, b);
    if i < 0x100 {
      assert a[1..][0] == 0 && b[1..][0] == i;
      assert Memcmp(a[1..], b[1..]) == -1;
    }
  }

  lemma DistinctIds(i: Place, j: Place)
    requires i != j
    ensures Id(i) != Id(j)
  {
    assert Id(i)[0] == i / 0x100 && Id(i)[1] == i % 0x100 && Id(j)[0] == j / 0x100 && Id(j)[1] == j % 0x100;
  }

  lemma {:induction false} SourceIsOther(l: Line, i: Place)
    requires i > 0
    ensures exists j: Place | j < i :: Source(l, i).clockIdentity == Id(j)
  {
    if i - 1 in l.tcs && i > 1 {
      SourceIsOther(l, i - 1);
      var j: Place :| j < i - 1 && Source(l, i - 1).clockIdentity == Id(j);
    } else {
      assert Source(l, i).clockIdentity == Id(i - 1);
    }
  }

  lemma SourceIsForeign(l: Line, i: Place)
    requires i > 0
    ensures Source(l, i).clockIdentity != Id(i)
  {
    SourceIsOther(l, i);
    var j: Place :| j < i && Source(l, i).clockIdentity == Id(j);
    DistinctIds(i, j);
  }

  // ---------------------------------------------------------------------
  // One clock
  // ---------------------------------------------------------------------

  /** A clock whose ports keep their records, and with them its choice. */
  lemma ChoosesSame(cfg: ClockConfig, c: ClockValue, bests: seq<Option<Dataset>>)
    requires |cfg.ports| == |c.ports| && bests == BestsOf(c.ports)
    requires forall i | 0 <= i < |c.ports| :: WithBest(cfg.ports[i], c.ports[i], 0) == c.ports[i]
    requires ClockBest(cfg.cmp, bests) == c.best
    requires c.bestId == if c.best.Some? then bests[c.best.value].value.identity else cfg.dds.clockIdentity
    ensures Chosen(cfg, c, 0) == c
  {
    hide WithBest, BestsOf, ClockBest;
    assert WithBests(cfg, c, 0) == c.ports;
  }

  lemma DispatchesSame(cfg: PortConfig, p: PortValue, event: Event)
    requires HasMachine(cfg) && !cfg.slaveOnly && Enabled(p.state) && PtpFsm(p.state, event, false) == p.state
    ensures Dispatched(cfg, p, event, false, true) == p
  {
  }

  lemma DecidesSame(cfg: ClockConfig, c: ClockValue, i: nat, rec: PortState)
    requires i < |c.ports| == |cfg.ports|
    requires Recommendation(cfg.dds, cfg.cmp, c.best, BestsOf(c.ports), i, c.ports[i].state) == rec
    requires Assumed(cfg.dds, c, i, rec) == c
    requires Dispatched(cfg.ports[i], c.ports[i], EventOf(rec), false, true) == c.ports[i]
    ensures Decided(cfg, c, i, false, true) == c
  {
    hide Recommendation, Assumed, Dispatched;
  }

  lemma {:induction false} AllDecideSame(cfg: ClockConfig, c: ClockValue, n: nat)
    requires n <= |c.ports| == |cfg.ports|
    requires forall i | 0 <= i < n :: Decided(cfg, c, i, false, true) == c
    ensures DecidedUpTo(cfg, c, n, false, AllOk(|c.ports|)) == c
  {
    hide Decided;
    if n > 0 {
      AllDecideSame(cfg, c, n - 1);
    }
  }

  lemma DecisionSame(cfg: ClockConfig, c: ClockValue)
    requires |c.ports| == |cfg.ports| && Chosen(cfg, c, 0) == c
    requires forall i | 0 <= i < |c.ports| :: Decided(cfg, c, i, false, true) == c
    ensures Decision(cfg, c, 0, AllOk(|c.ports|)) == c
  {
    AllDecideSame(cfg, c, |c.ports|);
    hide Decided, Chosen, DecidedUpTo;
  }

  lemma OneBest(cmp: Comparison, x: Option<Dataset>)
    ensures ClockBest(cmp, [x]) == if x.Some? then Some(0) else None
  {
    assert [x][..0] == [];
  }

  lemma TwoBests(cmp: Comparison, x: Dataset, y: Option<Dataset>)
    requires y.Some? ==> cmp(y.value, x) <= 0
    ensures ClockBest(cmp, [Some(x), y]) == Some(0)
  {
    OneBest(cmp, Some(x));
    assert [Some(x), y][..1] == [Some(x)];
  }

  lemma TopChooses(l: Line, i: Place)
    requires Proper(l) && Top(i) && i < l.n
    ensures |Config(l, i).ports| == 1 && Config(l, i).ports[0] == PortAt(i, 1)
    ensures Chosen(Config(l, i), TopClock(i), 0) == TopClock(i) && BestsOf(TopClock(i).ports) == [None]
  {
    var cfg, c := Config(l, i), TopClock(i);
    SilentStays(PortAt(i, 1), GRAND_MASTER, 0);
    hide WithBest, BestDataset;
    assert BestsOf(c.ports) == [None];
    OneBest(cfg.cmp, None);
    hide ClockBest, Chosen;
    ChoosesSame(cfg, c, [None]);
  }

  lemma TopClockStays(l: Line, i: Place)
    requires Proper(l) && Top(i) && i < l.n
    ensures Chosen(Config(l, i), TopClock(i), 0) == TopClock(i)
    ensures Decision(Config(l, i), TopClock(i), 0, AllOk(1)) == TopClock(i)
  {
    hide Chosen, Dispatched, Decided, Decision, BestsOf;
    var cfg, c := Config(l, i), TopClock(i);
    TopChooses(l, i);
    DispatchesSame(cfg.ports[0], c.ports[0], EventOf(GRAND_MASTER));
    DecidesSame(cfg, c, 0, GRAND_MASTER);
    DecisionSame(cfg, c);
  }

  /** The data set that clock i follows. */
  function Followed(l: Line, i: Place): Dataset
    requires i > 0
  {
    ToDataset(FromAbove(l, i), PortAt(i, 1))
  }

  function BelowBest(l: Line, i: Place): Option<Dataset> {
    if i + 1 == LONGEST - 1 && l.n == LONGEST then
      Some(ToDataset(Sent(PortIdentity(Id(i + 1), 1), i + 1, 0), PortAt(i, 2)))
    else None
  }

  lemma BelowStays(l: Line, i: Place)
    ensures WithBest(PortAt(i, 2), Below(l, i), 0) == Below(l, i) && BestDataset(Below(l, i)) == BelowBest(l, i)
  {
    if i + 1 == LONGEST - 1 && l.n == LONGEST {
      HearingStays(PortAt(i, 2), MASTER, Sent(PortIdentity(Id(i + 1), 1), i + 1, 0), 0);
    } else {
      SilentStays(PortAt(i, 2), MASTER, 0);
    }
  }

  lemma FollowedIsBest(l: Line, i: Place)
    requires 0 < i
    ensures DscmpSets(DefaultDataset(Dds(i)), Followed(l, i)) < 0
    ensures BelowBest(l, i).Some? ==>
              DscmpSets(BelowBest(l, i).value, Followed(l, i)) < 0 && DscmpSets(Followed(l, i), BelowBest(l, i).value) == A_BETTER
  {
    FirstIsBetter(i);
    if BelowBest(l, i).Some? {
      FirstIsBetter(i + 1);
    }
  }

  lemma FollowerHears(l: Line, i: Place)
    requires Proper(l) && 0 < i < l.n
    ensures BestsOf(FollowerPorts(l, i))
         == if i < l.n - 1 then [Some(Followed(l, i)), BelowBest(l, i)] else [Some(Followed(l, i))]
    ensures BestOf(FollowerPorts(l, i)[0]) == Some(Heard(FromAbove(l, i), PortAt(i, 1)))
  {
    hide WithBest, BelowBest, Below, Followed;
    HearingStays(PortAt(i, 1), SLAVE, FromAbove(l, i), 0);
    BelowStays(l, i);
    FollowedIs(l, i);
    hide BestDataset, Hearing, Heard;
  }

  lemma FollowedIs(l: Line, i: Place)
    requires 0 < i
    ensures Followed(l, i) == ToDataset(FromAbove(l, i), PortAt(i, 1))
  {
  }

  lemma FollowerBests(l: Line, i: Place)
    requires Proper(l) && 0 < i < l.n
    ensures var bests := BestsOf(FollowerPorts(l, i));
            bests == if i < l.n - 1 then [Some(Followed(l, i)), BelowBest(l, i)] else [Some(Followed(l, i))]
    ensures ClockBest(Dscmp(IEEE1588), BestsOf(FollowerPorts(l, i))) == Some(0)
    ensures BestOf(FollowerPorts(l, i)[0]) == Some(Heard(FromAbove(l, i), PortAt(i, 1)))
  {
    hide BestOf, BestsOf, FollowerPorts, Followed, BelowBest;
    FollowerHears(l, i);
    FollowedIsBest(l, i);
    hide DscmpSets;
    var d := Followed(l, i);
    OneBest(Dscmp(IEEE1588), Some(d));
    TwoBests(Dscmp(IEEE1588), d, BelowBest(l, i));
  }

  lemma FollowerChooses(l: Line, i: Place)
    requires Proper(l) && 0 < i < l.n
    ensures |Config(l, i).ports| == |Follower(l, i).ports|
    ensures Chosen(Config(l, i), Follower(l, i), 0) == Follower(l, i)
  {
    hide WithBest, ClockBest, Chosen, Heard, Below;
    var cfg, c := Config(l, i), Follower(l, i);
    FollowerBests(l, i);
    HearingStays(PortAt(i, 1), SLAVE, FromAbove(l, i), 0);
    BelowStays(l, i);
    ChoosesSame(cfg, c, BestsOf(c.ports));
  }

  lemma FollowerDecides(l: Line, i: Place, p: nat)
    requires Proper(l) && 0 < i < l.n && p < |FollowerPorts(l, i)|
    ensures |Config(l, i).ports| == |Follower(l, i).ports|
    ensures Decided(Config(l, i), Follower(l, i), p, false, true) == Follower(l, i)
  {
    hide Dispatched, ClockBest, Decided, DscmpSets;
    var cfg, c := Config(l, i), Follower(l, i);
    FollowerBests(l, i);
    FollowedIsBest(l, i);
    var rec := if p == 0 then SLAVE else MASTER;
    DispatchesSame(cfg.ports[p], c.ports[p], EventOf(rec));
    DecidesSame(cfg, c, p, rec);
  }

  lemma FollowerStays(l: Line, i: Place)
    requires Proper(l) && 0 < i < l.n
    ensures |Config(l, i).ports| == |Follower(l, i).ports|
    ensures Chosen(Config(l, i), Follower(l, i), 0) == Follower(l, i)
    ensures Decision(Config(l, i), Follower(l, i), 0, AllOk(|Follower(l, i).ports|)) == Follower(l, i)
  {
    var cfg, c := Config(l, i), Follower(l, i);
    FollowerChooses(l, i);
    forall p: nat | p < |c.ports| ensures Decided(cfg, c, p, false, true) == c {
      FollowerDecides(l, i, p);
    }
    DecisionSame(cfg, c);
  }

  lemma ClockIsSound(l: Line, i: Place)
    requires Proper(l) && i < l.n
    ensures WellFormed(Config(l, i)) && ClockInv(Config(l, i), Clock(l, i))
  {
    if !Top(i) {
      FollowerIsSound(l, i);
    }
  }

  lemma FollowerIsSound(l: Line, i: Place)
    requires Proper(l) && 0 < i < l.n && !Top(i)
    ensures ClockInv(Config(l, i), Follower(l, i))
  {
    SourceIsForeign(l, i);
    HearingInv(PortAt(i, 1), SLAVE, FromAbove(l, i));
    BelowIsSound(l, i);
    StatesOf(l, i);
    hide PortInv, Hearing, Below, Anchored, Source;
  }

  lemma BelowIsSound(l: Line, i: Place)
    requires i + 1 < LONGEST
    ensures PortInv(PortAt(i, 2), Below(l, i)) && Anchored(Below(l, i))
  {
    if BelowBest(l, i).Some? {
      DistinctIds(i, i + 1);
      HearingInv(PortAt(i, 2), MASTER, Sent(PortIdentity(Id(i + 1), 1), i + 1, 0));
    }
  }

  lemma StatesOf(l: Line, i: Place)
    requires 0 < i < l.n
    ensures FollowerPorts(l, i)[0].state == SLAVE
    ensures i < l.n - 1 ==> FollowerPorts(l, i)[1].state == MASTER
  {
  }

  /** One clock of a line as Topology wants it. */
  ghost predicate NodeIsProper(node: Node) {
    && |node.peers| == |node.cfg.ports| == |node.clock.ports| > 0
    && node.cfg.cmp == Dscmp(IEEE1588) && node.cfg.dds.clockQuality.clockClass > 127
    && WellFormed(node.cfg) && ClockInv(node.cfg, node.clock)
    && forall p | 0 <= p < |node.cfg.ports| :: !node.cfg.ports[p].slaveOnly && !node.cfg.ports[p].masterOnly
  }

  lemma NodeAtIsProper(l: Line, i: Place)
    requires Proper(l) && i < l.n
    ensures NodeIsProper(NodeAt(l, i))
  {
    ClockIsSound(l, i);
    hide ClockInv, WellFormed;
  }

  lemma ChainLinks(l: Line, n: nat, p: nat)
    requires Proper(l) && IsPort(Chain(l), n, p)
    ensures var net := Chain(l);
            var (m, q) := net[n].peers[p];
            m != n && IsPort(net, m, q) && net[m].peers[q] == (n, p)
  {
  }

  lemma TopologyFrom(net: Net)
    requires forall n | 0 <= n < |net| :: NodeIsProper(net[n])
    requires forall n, m | 0 <= n < m < |net| :: Identity(net, n) != Identity(net, m)
    requires forall n: nat, p: nat | IsPort(net, n, p) ::
               var (m, q) := net[n].peers[p]; m != n && IsPort(net, m, q) && net[m].peers[q] == (n, p)
    requires forall n: nat, p: nat, q: nat | IsPort(net, n, p) && IsPort(net, n, q) && p != q :: Pid(net, n, p) != Pid(net, n, q)
    ensures Topology(net)
  {
    hide ClockInv, WellFormed;
  }

  lemma ChainIsProper(l: Line)
    requires Proper(l)
    ensures Topology(Chain(l))
  {
    var net := Chain(l);
    forall n | 0 <= n < |net| ensures NodeIsProper(net[n]) {
      NodeAtIsProper(l, n);
    }
    forall n, m | 0 <= n < m < |net| ensures Identity(net, n) != Identity(net, m) {
      DistinctIds(n, m);
    }
    forall n: nat, p: nat | IsPort(net, n, p)
      ensures var (m, q) := net[n].peers[p]; m != n && IsPort(net, m, q) && net[m].peers[q] == (n, p)
    {
      ChainLinks(l, n, p);
    }
    hide NodeIsProper;
    TopologyFrom(net);
  }

  // ---------------------------------------------------------------------
  // What leaves each port
  // ---------------------------------------------------------------------

  /** The best data sets of a clock of the line. */
  function BestsAt(l: Line, i: Place): (bs: seq<Option<Dataset>>)
    requires i < l.n
  {
    if Top(i) then [None]
    else if i < l.n - 1 then [Some(Followed(l, i)), BelowBest(l, i)]
    else [Some(Followed(l, i))]
  }

  lemma ChainBests(l: Line, i: Place)
    requires Proper(l) && i < l.n
    ensures |Chain(l)[i].clock.ports| == |Chain(l)[i].cfg.ports|
    ensures Bests(Chain(l), i, 0) == BestsAt(l, i)
  {
    assert Chain(l)[i] == NodeAt(l, i);
    if Top(i) {
      TopClockStays(l, i);
      assert BestsOf(TopClock(i).ports) == [None];
    } else {
      FollowerStays(l, i);
      FollowerBests(l, i);
    }
    hide Chosen, BestsOf, ClockBest, Decision;
  }

  lemma ChainStates(l: Line, i: Place)
    requires Proper(l) && i < l.n
    ensures var net := Chain(l);
            && IsPort(net, i, 0) && (IsPort(net, i, 1) <==> 0 < i < l.n - 1) && (forall p | p > 1 :: !IsPort(net, i, p))
            && State(net, i, 0) == (if Top(i) then GRAND_MASTER else SLAVE)
            && (0 < i < l.n - 1 ==> State(net, i, 1) == MASTER)
            && Steps(net, i) == if Top(i) then 0 else i
  {
    assert Chain(l)[i] == NodeAt(l, i);
    if !Top(i) {
      StatesOf(l, i);
    }
  }

  /** What clock i + 1 hears from above, and what clock 255 of the longest line
      hears from below. */
  function SaysDown(l: Line, i: Place): Content
    requires i + 1 < LONGEST
  {
    Content(128, Id(0), QUALITY, 128, i, Source(l, i + 1))
  }

  function SaysUp(i: Place): Content {
    Content(128, Id(i), QUALITY, 128, 0, PortIdentity(Id(i), 1))
  }

  lemma RelaysOnly(net: Net, m: nat, b: nat, best: Dataset)
    requires m < |net| && |net[m].clock.ports| == |net[m].cfg.ports| && Upstream(net, 0, m, b)
    requires Bests(net, m, 0)[b] == Some(best)
    requires forall x: nat | Upstream(net, 0, m, x) :: x == b
    ensures var c := ContentOf(best); Relayed(net, 0, m) == Some(c.(stepsRemoved := c.stepsRemoved + 1))
  {
    hide Bests, Upstream;
  }

  lemma RelaysDown(l: Line, i: Place)
    requires Proper(l) && 0 < i < l.n - 1 && i in l.tcs
    ensures |Chain(l)[i].clock.ports| == |Chain(l)[i].cfg.ports|
    ensures Relayed(Chain(l), 0, i) == Some(SaysDown(l, i))
  {
    ChainBests(l, i);
    OnlyUpstream(l, i);
    hide Bests, State, Relayed, Chain, Upstream;
    RelaysOnly(Chain(l), i, 0, Followed(l, i));
    assert ContentOf(Followed(l, i)) == SaysDown(l, i - 1);
  }

  lemma OnlyUpstream(l: Line, i: Place)
    requires Proper(l) && 0 < i < l.n - 1
    ensures |Chain(l)[i].clock.ports| == |Chain(l)[i].cfg.ports|
    ensures Upstream(Chain(l), 0, i, 0) && forall b: nat | Upstream(Chain(l), 0, i, b) :: b == 0
  {
    ChainBests(l, i);
    ChainStates(l, i);
    hide Bests, Chain, State;
    TwoPorts(l, i);
    forall b: nat | Upstream(Chain(l), 0, i, b) ensures b == 0 {
      assert IsPort(Chain(l), i, b);
    }
  }

  lemma TwoPorts(l: Line, i: Place)
    requires Proper(l) && 0 < i < l.n - 1
    ensures |Chain(l)[i].cfg.ports| == 2 == |Chain(l)[i].peers|
  {
    assert Chain(l)[i] == NodeAt(l, i);
  }

  lemma SendsDown(l: Line, i: Place)
    requires Proper(l) && i < l.n - 1
    ensures |Chain(l)[i].clock.ports| == |Chain(l)[i].cfg.ports|
    ensures Sends(Chain(l), 0, i, Down(i)) == Some(SaysDown(l, i))
  {
    ChainBests(l, i);
    ChainStates(l, i);
    assert Chain(l)[i] == NodeAt(l, i);
    if i in l.tcs {
      RelaysDown(l, i);
    } else {
      OwnDown(l, i);
    }
    hide Bests, Relayed, OwnAnnounce;
  }

  lemma OwnDown(l: Line, i: Place)
    requires Proper(l) && i < l.n - 1 && i !in l.tcs
    ensures OwnAnnounce(Chain(l), i, Down(i)) == SaysDown(l, i)
  {
    assert Chain(l)[i] == NodeAt(l, i);
  }

  lemma SendsUp(l: Line, i: Place)
    requires Proper(l) && 0 < i < l.n
    ensures |Chain(l)[i].clock.ports| == |Chain(l)[i].cfg.ports|
    ensures Sends(Chain(l), 0, i, 0) == if Deaf(i) then Some(SaysUp(i)) else None
  {
    ChainBests(l, i);
    ChainStates(l, i);
    assert Chain(l)[i] == NodeAt(l, i);
  }

  lemma InformedFrom(net: Net, n: nat, p: nat, m: nat, q: nat, best: Option<Dataset>, sent: Option<Content>)
    requires IsPort(net, n, p) && net[n].peers[p] == (m, q) && IsPort(net, m, q)
    requires |net[m].clock.ports| == |net[m].cfg.ports| && Sends(net, 0, m, q) == sent
    requires best.Some? <==> sent.Some? && sent.value.stepsRemoved < 255
    requires best.Some? ==> ContentOf(best.value) == sent.value && best.value.receiver == Pid(net, n, p)
    ensures Informed(net, 0, n, p, best)
  {
    hide Sends;
  }

  lemma InformedBelow(l: Line, i: Place)
    requires Proper(l) && i < l.n - 1
    ensures Down(i) < |BestsAt(l, i)| && IsPort(Chain(l), i, Down(i))
    ensures Informed(Chain(l), 0, i, Down(i), BestsAt(l, i)[Down(i)])
  {
    ChainStates(l, i);
    ChainStates(l, i + 1);
    assert Chain(l)[i] == NodeAt(l, i);
    SendsUp(l, i + 1);
    hide Sends, State, Informed;
    InformedFrom(Chain(l), i, Down(i), i + 1, 0, BestsAt(l, i)[Down(i)], if Deaf(i + 1) then Some(SaysUp(i + 1)) else None);
  }

  lemma InformedAbove(l: Line, i: Place)
    requires Proper(l) && 0 < i < l.n
    ensures 0 < |BestsAt(l, i)| && IsPort(Chain(l), i, 0)
    ensures Informed(Chain(l), 0, i, 0, BestsAt(l, i)[0])
  {
    ChainStates(l, i);
    ChainStates(l, i - 1);
    assert Chain(l)[i] == NodeAt(l, i);
    SendsDown(l, i - 1);
    hide Sends, State, Informed;
    InformedFrom(Chain(l), i, 0, i - 1, Down(i - 1), BestsAt(l, i)[0], Some(SaysDown(l, i - 1)));
  }

  lemma ChainInformed(l: Line, i: Place, p: nat)
    requires Proper(l) && i < l.n && IsPort(Chain(l), i, p)
    ensures p < |BestsAt(l, i)| && Informed(Chain(l), 0, i, p, BestsAt(l, i)[p])
  {
    ChainStates(l, i);
    hide Informed, State, BestsAt;
    if i < l.n - 1 && p == Down(i) {
      InformedBelow(l, i);
    } else {
      InformedAbove(l, i);
    }
  }

  // ---------------------------------------------------------------------
  // The line at rest
  // ---------------------------------------------------------------------

  lemma QuietNode(net: Net, n: nat)
    requires Topology(net) && n < |net| && |net[n].clock.ports| == |net[n].cfg.ports|
    requires Chosen(net[n].cfg, net[n].clock, 0) == net[n].clock
    requires Decision(net[n].cfg, net[n].clock, 0, AllOk(|net[n].clock.ports|)) == net[n].clock
    requires forall p | 0 <= p < |net[n].clock.ports| :: AtRest(net[n].clock.ports[p], BestDataset(net[n].clock.ports[p]))
    ensures Quiet(net, n, 0)
  {
    hide Chosen, Decision, Topology, AtRest, BestDataset;
  }

  lemma ClockStays(l: Line, i: Place)
    requires Proper(l) && i < l.n
    ensures var cfg, c := Config(l, i), Clock(l, i);
            |c.ports| == |cfg.ports| && Chosen(cfg, c, 0) == c && Decision(cfg, c, 0, AllOk(|c.ports|)) == c
  {
    if Top(i) {
      TopClockStays(l, i);
    } else {
      FollowerStays(l, i);
    }
    hide Chosen, Decision;
  }

  lemma ChainIsQuiet(l: Line, i: Place)
    requires Proper(l) && i < l.n && Topology(Chain(l))
    ensures Quiet(Chain(l), i, 0)
  {
    assert Chain(l)[i] == NodeAt(l, i);
    ClockStays(l, i);
    PortsRest(l, i);
    hide Chosen, Decision, Topology, Quiet, AtRest, Clock, Config, Peers;
    QuietNode(Chain(l), i);
  }

  lemma FollowingRests(p: PortValue, best: Option<Dataset>)
    requires p.state == SLAVE && best.Some?
    ensures AtRest(p, best)
  {
  }

  lemma LeadingRests(p: PortValue, best: Option<Dataset>)
    requires p.state == MASTER || p.state == GRAND_MASTER
    ensures AtRest(p, best)
  {
  }

  lemma PortsRest(l: Line, i: Place)
    requires Proper(l) && i < l.n
    ensures var c := Clock(l, i); forall p | 0 <= p < |c.ports| :: AtRest(c.ports[p], BestDataset(c.ports[p]))
  {
    hide AtRest, BestDataset;
    if Top(i) {
      LeadingRests(Silent(GRAND_MASTER), BestDataset(Silent(GRAND_MASTER)));
    } else {
      FollowerRests(l, i);
    }
  }

  lemma FollowerRests(l: Line, i: Place)
    requires Proper(l) && 0 < i < l.n
    ensures var ps := FollowerPorts(l, i); forall p | 0 <= p < |ps| :: AtRest(ps[p], BestDataset(ps[p]))
  {
    StatesOf(l, i);
    hide AtRest, BestDataset, Below, Followed, ClockBest, BestOf;
    FollowerBests(l, i);
    var ps := FollowerPorts(l, i);
    assert BestDataset(ps[0]) == BestsOf(ps)[0];
    FollowingRests(ps[0], BestDataset(ps[0]));
    if i < l.n - 1 {
      LeadingRests(ps[1], BestDataset(ps[1]));
    }
  }

  lemma ChainIsResting(l: Line)
    requires Proper(l)
    ensures Resting(Chain(l), 0)
  {
    hide Quiet, Informed, Topology, Bests, Chain;
    var net := Chain(l);
    ChainIsProper(l);
    PortsMatch(net);
    forall i: nat | i < l.n ensures Quiet(net, i, 0) {
      ChainIsQuiet(l, i);
    }
    forall i: nat, p: nat | IsPort(net, i, p) ensures Informed(net, 0, i, p, Bests(net, i, 0)[p]) {
      ChainBests(l, i);
      ChainInformed(l, i, p);
    }
  }

  lemma ChainSteps(l: Line)
    requires Proper(l)
    ensures forall i: nat | i < l.n && i < LONGEST - 1 :: Steps(Chain(l), i) == i
  {
    hide Chain, Steps, State, IsPort;
    forall i: nat | i < l.n ensures Steps(Chain(l), i) == if Top(i) then 0 else i {
      ChainStates(l, i);
    }
  }

  /** A line of up to 257 clocks, any of which but the first and the last can be
      transparent, is at rest when each clock follows the one above it.  Up to 256
      of them, exactly one end of each link transmits.  With one more, the last one
      hears nothing that is fewer than 255 steps away, and both ends of its link
      transmit. */
  lemma ChainRests(l: Line)
    requires Proper(l)
    ensures Resting(Chain(l), 0) && (Quiescent(Chain(l), 0) <==> l.tcs == {})
    ensures forall i: nat | i < l.n && i < LONGEST - 1 :: Steps(Chain(l), i) == i
    ensures l.tcs == {} ==> (Shallow(Chain(l)) <==> l.n < LONGEST)
    ensures l.n == LONGEST ==> Transmits(Chain(l), 255, 1) && Transmits(Chain(l), 256, 0)
  {
    hide Resting, Steps, Shallow, Transmits, Chain;
    ChainIsResting(l);
    ChainSteps(l);
    ChainKinds(l);
    ChainDepth(l);
  }

  lemma ChainKinds(l: Line)
    requires Proper(l)
    ensures (forall n | 0 <= n < l.n :: !Chain(l)[n].transparent) <==> l.tcs == {}
  {
    forall n | 0 <= n < l.n ensures Chain(l)[n].transparent == (n in l.tcs) {
    }
    if l.tcs != {} {
      var n :| n in l.tcs;
      assert Chain(l)[n].transparent;
    }
  }

  lemma ChainDepth(l: Line)
    requires Proper(l)
    ensures Shallow(Chain(l)) <==> l.n < LONGEST
    ensures l.n == LONGEST ==> Transmits(Chain(l), 255, 1) && Transmits(Chain(l), 256, 0)
  {
    var net := Chain(l);
    if l.n == LONGEST {
      ChainStates(l, 255);
      ChainStates(l, 256);
      assert IsPort(net, 255, 1) && Transmits(net, 255, 1) && Steps(net, 255) >= 255;
    } else {
      forall n: nat, p: nat | IsPort(net, n, p) && Transmits(net, n, p) ensures Steps(net, n) < 255 {
        ChainStates(l, n);
      }
    }
  }

  // ---------------------------------------------------------------------
  // Forwarding down the line
  // ---------------------------------------------------------------------

  /** The way of a Sync through the transparent clocks from first to last. */
  function WayDown(first: nat, count: nat): (hops: seq<ForwardingTheory.Hop>)
    ensures |hops| == count && forall k | 0 <= k < count :: hops[k] == ForwardingTheory.Hop(first + k, 0, 1)
  {
    seq(count, k requires 0 <= k < count => ForwardingTheory.Hop(first + k, 0, 1))
  }

  lemma PassesDown(l: Line, i: Place)
    requires Proper(l) && i in l.tcs && i < LONGEST - 1
    ensures ForwardingTheory.Passes(Chain(l), i, 0, 1, TransparentClock.SYNC)
  {
    ChainStates(l, i);
    hide State;
  }

  lemma LinkedDown(l: Line, i: Place)
    requires Proper(l) && i in l.tcs && i < LONGEST - 1
    ensures i < l.n && 1 < |Chain(l)[i].peers| && Chain(l)[i].peers[1] == (i + 1, 0)
  {
    assert Chain(l)[i] == NodeAt(l, i);
    hide Clock, Config;
  }

  /** Through any number of transparent clocks in a row a Sync is forwarded. */
  lemma SyncGoesDown(l: Line, first: nat, count: nat)
    requires Proper(l) && forall i | first <= i < first + count :: i in l.tcs && i < LONGEST - 1
    ensures ForwardingTheory.Travels(Chain(l), WayDown(first, count), TransparentClock.SYNC)
  {
    var net, hops := Chain(l), WayDown(first, count);
    hide ForwardingTheory.Passes, Chain, Proper;
    forall k | 0 <= k < count
      ensures first + k < l.n && 1 < |net[first + k].peers| && net[first + k].peers[1] == (first + k + 1, 0)
      ensures ForwardingTheory.Passes(net, hops[k].clock, hops[k].ingress, hops[k].egress, TransparentClock.SYNC)
    {
      assert first + k in l.tcs;
      LinkedDown(l, first + k);
      PassesDown(l, first + k);
    }
    forall k | 0 < k < count ensures net[hops[k - 1].clock].peers[hops[k - 1].egress] == (hops[k].clock, hops[k].ingress) {
      assert hops[k - 1].clock == first + (k - 1);
    }
  }
}
