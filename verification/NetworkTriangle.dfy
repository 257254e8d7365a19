/** A network at rest in which both ends of a link transmit although no clock is far
    away: two transparent clocks that hear the same master, and each other. */
module NetworkTriangle {
  import opened Octets
  import opened DataSets
  import opened Bmc
  import opened Fsm
  import opened ForeignMasters
  import opened PortBmc
  import opened PortTheory
  import opened PortHearing
  import opened ClockBmc
  import opened ClockTheory
  import opened Network
  import opened NetworkTheory
  import Chain = NetworkChain

  /** Clocks 0 and 1 are transparent, clock 2 is the master and has the highest identity. */
  type Corner = i: nat | i < 3

  type Relay = i: nat | i < 2

  const MASTER_DDS := DefaultDS(0, Chain.Id(2), Chain.QUALITY, 128, 128)

  function Config(i: Corner): ClockConfig {
    ClockConfig(if i == 2 then MASTER_DDS else Chain.Dds(i), [Chain.PortAt(i, 1), Chain.PortAt(i, 2)], Dscmp(IEEE1588))
  }

  function Sent(number: U16, steps: U16): Announce {
    Announce(PortIdentity(Chain.Id(2), number), 0, Chain.Id(2), Chain.QUALITY, 128, steps, 0, 0)
  }

  /** What a transparent clock hears from the master, and from the other one. */
  function FromMaster(i: Relay): Announce {
    Sent(i + 1, 0)
  }

  function FromOther(i: Relay): Announce {
    Sent(2 - i, 1)
  }

  function RelayPorts(i: Relay): seq<PortValue> {
    [Hearing(SLAVE, FromMaster(i), Chain.PortAt(i, 1)), Hearing(MASTER, FromOther(i), Chain.PortAt(i, 2))]
  }

  function RelayClock(i: Relay): ClockValue {
    ClockValue(RelayPorts(i), Some(0), Chain.Id(2), SlaveParent(FromMaster(i).source, FromMaster(i)), 1)
  }

  function MasterClock(): ClockValue {
    ClockValue([Silent(GRAND_MASTER), Silent(GRAND_MASTER)], None, Chain.Id(2), OwnParent(MASTER_DDS), 0)
  }

  function NodeAt(i: Corner): Node {
    Node(Config(i), if i == 2 then MasterClock() else RelayClock(i), i != 2,
         if i == 2 then [(0, 0), (1, 0)] else [(2, i), (1 - i, 1)])
  }

  function Triangle(): (net: Net)
    ensures |net| == 3 && net[0] == NodeAt(0) && net[1] == NodeAt(1) && net[2] == NodeAt(2)
  {
    [NodeAt(0), NodeAt(1), NodeAt(2)]
  }

  // ---------------------------------------------------------------------
  // Topology
  // ---------------------------------------------------------------------

  lemma RelayInv(i: Relay)
    ensures ClockInv(Config(i), RelayClock(i))
  {
    Chain.DistinctIds(i, 2);
    HearingInv(Chain.PortAt(i, 1), SLAVE, FromMaster(i));
    HearingInv(Chain.PortAt(i, 2), MASTER, FromOther(i));
    hide PortInv, Anchored;
  }

  lemma NodeIsProper(i: Corner)
    ensures Chain.NodeIsProper(NodeAt(i))
  {
    if i != 2 {
      RelayInv(i);
    }
  }

  lemma LinksMatch(n: nat, p: nat)
    requires IsPort(Triangle(), n, p)
    ensures var net := Triangle();
            var (m, q) := net[n].peers[p];
            m != n && IsPort(net, m, q) && net[m].peers[q] == (n, p)
  {
    hide Config, RelayClock, MasterClock;
  }

  lemma PortsDiffer(n: nat, p: nat, q: nat)
    requires IsPort(Triangle(), n, p) && IsPort(Triangle(), n, q) && p != q
    ensures Pid(Triangle(), n, p) != Pid(Triangle(), n, q)
  {
    hide RelayClock, MasterClock, Chain.Id;
  }

  lemma IsProper()
    ensures Topology(Triangle())
  {
    hide Chain.NodeIsProper, RelayClock, MasterClock;
    var net := Triangle();
    forall i: nat | i < 3 ensures Chain.NodeIsProper(net[i]) {
      NodeIsProper(i);
    }
    forall n, m | 0 <= n < m < 3 ensures Identity(net, n) != Identity(net, m) {
      Chain.DistinctIds(n, m);
    }
    forall n: nat, p: nat | IsPort(net, n, p)
      ensures var (m, q) := net[n].peers[p]; m != n && IsPort(net, m, q) && net[m].peers[q] == (n, p)
    {
      LinksMatch(n, p);
    }
    forall n: nat, p: nat, q: nat | IsPort(net, n, p) && IsPort(net, n, q) && p != q ensures Pid(net, n, p) != Pid(net, n, q) {
      PortsDiffer(n, p, q);
    }
    hide Triangle, Pid, IsPort, Identity;
    Chain.TopologyFrom(net);
  }

  // ---------------------------------------------------------------------
  // Each clock stays as it is
  // ---------------------------------------------------------------------

  function Near(i: Relay): Dataset {
    ToDataset(FromMaster(i), Chain.PortAt(i, 1))
  }

  function Far(i: Relay): Dataset {
    ToDataset(FromOther(i), Chain.PortAt(i, 2))
  }

  /** The clock's own port identity is lower than that of the master, so that it would
      rather be followed by the other one, too. */
  lemma NearIsBest(i: Relay)
    ensures DscmpSets(DefaultDataset(Chain.Dds(i)), Near(i)) < 0
    ensures DscmpSets(Far(i), Near(i)) < 0 && DscmpSets(Near(i), Far(i)) == A_BETTER
  {
    OwnIsWorse(i);
    LowerThanMaster(i);
    PidCmpZero(Near(i).receiver, Near(i).sender);
    MemcmpAntisymmetric(Near(i).identity, Far(i).identity);
    hide Memcmp, PidCmp, Chain.Id;
  }

  lemma OwnIsWorse(i: Relay)
    ensures DscmpSets(DefaultDataset(Chain.Dds(i)), Near(i)) < 0
  {
    Chain.DistinctIds(i, 2);
    MemcmpAntisymmetric(Chain.Id(i), Chain.Id(2));
    hide Memcmp, Chain.Id, Dscmp2;
  }

  lemma LowerThanMaster(i: Relay)
    ensures PidCmp(Chain.PortAt(i, 2).identity, Far(i).sender) < 0
  {
    var a, b := Chain.PortAt(i, 2).identity.Image(), Far(i).sender.Image();
    assert a[0] == b[0] == 0 && a[1] == i && b[1] == 2;
    assert a[1..][0] == i && b[1..][0] == 2;
  }

  lemma RelayBests(i: Relay)
    ensures BestsOf(RelayPorts(i)) == [Some(Near(i)), Some(Far(i))]
    ensures forall p | 0 <= p < 2 :: WithBest(Config(i).ports[p], RelayPorts(i)[p], 0) == RelayPorts(i)[p]
    ensures BestOf(RelayPorts(i)[0]) == Some(Heard(FromMaster(i), Chain.PortAt(i, 1)))
  {
    HearingStays(Chain.PortAt(i, 1), SLAVE, FromMaster(i), 0);
    HearingStays(Chain.PortAt(i, 2), MASTER, FromOther(i), 0);
    hide WithBest, BestDataset, BestOf, Hearing, Heard;
  }

  lemma RelayChooses(i: Relay)
    ensures Chosen(Config(i), RelayClock(i), 0) == RelayClock(i)
    ensures ClockBest(Dscmp(IEEE1588), BestsOf(RelayPorts(i))) == Some(0)
  {
    RelayBests(i);
    NearIsBest(i);
    hide WithBest, ClockBest, BestsOf, Chosen, DscmpSets, Far;
    Chain.TwoBests(Dscmp(IEEE1588), Near(i), Some(Far(i)));
    Chain.ChoosesSame(Config(i), RelayClock(i), BestsOf(RelayPorts(i)));
  }

  lemma RelayDecides(i: Relay, p: nat)
    requires p < 2
    ensures Decided(Config(i), RelayClock(i), p, false, true) == RelayClock(i)
  {
    hide Dispatched, ClockBest, Decided, DscmpSets, Chain.Id, BestsOf, Dscmp2, WithBest;
    var cfg, c := Config(i), RelayClock(i);
    RelayBests(i);
    NearIsBest(i);
    var rec := if p == 0 then SLAVE else MASTER;
    Chain.DispatchesSame(cfg.ports[p], c.ports[p], EventOf(rec));
    Chain.DecidesSame(cfg, c, p, rec);
  }

  lemma RelayStays(i: Relay)
    ensures Chosen(Config(i), RelayClock(i), 0) == RelayClock(i)
    ensures Decision(Config(i), RelayClock(i), 0, AllOk(2)) == RelayClock(i)
  {
    hide Chosen, Decision, Decided, BestsOf, ClockBest, Hearing, DscmpSets;
    RelayChooses(i);
    RelayDecides(i, 0);
    RelayDecides(i, 1);
    Chain.DecisionSame(Config(i), RelayClock(i));
  }

  lemma RelayRests(i: Relay)
    ensures forall p | 0 <= p < 2 :: AtRest(RelayPorts(i)[p], BestDataset(RelayPorts(i)[p]))
  {
    hide AtRest, BestDataset, WithBest, BestOf, Near, Far;
    var ps := RelayPorts(i);
    RelayBests(i);
    assert BestDataset(ps[0]) == BestsOf(ps)[0];
    Chain.FollowingRests(ps[0], BestDataset(ps[0]));
    Chain.LeadingRests(ps[1], BestDataset(ps[1]));
  }

  lemma RelayIsQuiet(i: Relay)
    requires Topology(Triangle())
    ensures Quiet(Triangle(), i, 0)
  {
    hide Chosen, Decision, Topology, Quiet, RelayPorts, AtRest, BestDataset;
    PortsMatch(Triangle());
    RelayStays(i);
    RelayRests(i);
    Chain.QuietNode(Triangle(), i);
  }

  lemma MasterBests()
    ensures BestsOf(MasterClock().ports) == [None, None] && ClockBest(Dscmp(IEEE1588), [None, None]) == None
    ensures forall p | 0 <= p < 2 :: WithBest(Config(2).ports[p], MasterClock().ports[p], 0) == MasterClock().ports[p]
  {
    SilentStays(Chain.PortAt(2, 1), GRAND_MASTER, 0);
    SilentStays(Chain.PortAt(2, 2), GRAND_MASTER, 0);
    Chain.OneBest(Dscmp(IEEE1588), None);
    var none: seq<Option<Dataset>> := [None, None];
    assert none[..1] == [None];
    hide WithBest, BestDataset;
  }

  lemma MasterIsQuiet()
    requires Topology(Triangle())
    ensures Quiet(Triangle(), 2, 0) && Chosen(Config(2), MasterClock(), 0) == MasterClock()
  {
    hide Topology, Quiet, WithBest, ClockBest, BestsOf, Dispatched, Chosen, Decision, Decided;
    var cfg, c := Config(2), MasterClock();
    MasterBests();
    Chain.ChoosesSame(cfg, c, [None, None]);
    forall p: nat | p < 2 ensures Decided(cfg, c, p, false, true) == c && AtRest(c.ports[p], BestDataset(c.ports[p])) {
      Chain.DispatchesSame(cfg.ports[p], c.ports[p], EventOf(GRAND_MASTER));
      Chain.DecidesSame(cfg, c, p, GRAND_MASTER);
      Chain.LeadingRests(c.ports[p], BestDataset(c.ports[p]));
    }
    Chain.DecisionSame(cfg, c);
    Chain.QuietNode(Triangle(), 2);
  }

  // ---------------------------------------------------------------------
  // What the ports know
  // ---------------------------------------------------------------------

  lemma BestsAre(i: Corner)
    requires Topology(Triangle())
    ensures Bests(Triangle(), i, 0) == if i == 2 then [None, None] else [Some(Near(i)), Some(Far(i))]
  {
    hide Topology, Quiet, ClockBest, BestsOf, Chosen, Near, Far;
    if i == 2 {
      MasterIsQuiet();
      MasterBests();
    } else {
      RelayChooses(i);
      RelayBests(i);
    }
  }

  lemma RelaySends(i: Relay, q: nat)
    requires Topology(Triangle()) && q < 2
    ensures Sends(Triangle(), 0, i, q) == if q == 1 then Some(ContentOf(Near(i)).(stepsRemoved := 1)) else None
  {
    hide Topology, Bests, Chain.Id, DscmpSets;
    BestsAre(i);
    var net := Triangle();
    assert Upstream(net, 0, i, 0) && forall x: nat | Upstream(net, 0, i, x) :: x == 0;
    Chain.RelaysOnly(net, i, 0, Near(i));
  }

  lemma RelayInformed(i: Relay)
    requires Topology(Triangle())
    ensures Informed(Triangle(), 0, i, 0, Some(Near(i))) && Informed(Triangle(), 0, i, 1, Some(Far(i)))
  {
    hide Topology, Bests, Chain.Id, Relayed, Informed;
    var net := Triangle();
    RelaySends(1 - i, 1);
    Chain.InformedFrom(net, i, 0, 2, i, Some(Near(i)), Some(OwnAnnounce(net, 2, i)));
    hide Sends;
    Chain.InformedFrom(net, i, 1, 1 - i, 1, Some(Far(i)), Some(ContentOf(Near(1 - i)).(stepsRemoved := 1)));
  }

  lemma MasterInformed(p: nat)
    requires Topology(Triangle()) && p < 2
    ensures Informed(Triangle(), 0, 2, p, None)
  {
    hide Topology, Bests, Chain.Id, Sends, Informed;
    RelaySends(p, 0);
    Chain.InformedFrom(Triangle(), 2, p, p, 0, None, None);
  }

  /** Both transparent clocks transmit on the link between them. */
  lemma BothTransmit()
    ensures var net := Triangle();
            && Resting(net, 0) && net[0].transparent && net[1].transparent && net[0].peers[1] == (1, 1)
            && Transmits(net, 0, 1) && Transmits(net, 1, 1) && Steps(net, 0) == Steps(net, 1) == 1
  {
    hide Topology, Quiet, Bests, Informed;
    var net := Triangle();
    IsProper();
    PortsMatch(net);
    MasterIsQuiet();
    forall n: nat | n < 3 ensures Quiet(net, n, 0) {
      if n != 2 {
        RelayIsQuiet(n);
      }
    }
    forall n: nat, p: nat | IsPort(net, n, p) ensures Informed(net, 0, n, p, Bests(net, n, 0)[p]) {
      BestsAre(n);
      if n == 2 {
        MasterInformed(p);
      } else {
        RelayInformed(n);
      }
    }
  }
}
