/** A pair of clocks that can make no round: one of them follows a sender that is
    gone and whose last Announces do not expire. */
module NetworkStuck {
  import opened Octets
  import opened DataSets
  import opened Bmc
  import opened Fsm
  import opened ForeignMasters
  import opened PortBmc
  import opened PortTheory
  import opened PortHearing
  import opened PortListening
  import opened ClockBmc
  import opened ClockTheory
  import opened Network
  import opened NetworkTheory
  import opened NetworkStages
  import opened NetworkSettling
  import opened NetworkConvergence
  import opened NetworkProgress
  import opened NetworkUniqueness
  import Chain = NetworkChain

  const PAIR := Chain.Line(2, {})

  /** An Announce of a third clock, with the least interval that never ends. */
  function Ageless(): Announce {
    Announce(PortIdentity(Chain.Id(2), 1), 0, Chain.Id(2), Chain.QUALITY, 128, 0, 32, 0)
  }

  function StuckClock(): ClockValue {
    ClockValue([Hearing(SLAVE, Ageless(), Chain.PortAt(1, 1))], Some(0), Chain.Id(2), SlaveParent(Ageless().source, Ageless()), 1)
  }

  function Pair(): (net: Net)
    ensures |net| == 2
  {
    [Chain.NodeAt(PAIR, 0), Chain.NodeAt(PAIR, 1).(clock := StuckClock())]
  }

  lemma PairIsChain()
    ensures Chain.Proper(PAIR) && SameTopology(Chain.Chain(PAIR), Pair())
  {
  }

  lemma StuckInv()
    ensures ClockInv(Chain.Config(PAIR, 1), StuckClock())
  {
    Chain.DistinctIds(1, 2);
    HearingInv(Chain.PortAt(1, 1), SLAVE, Ageless());
    hide PortInv;
  }

  lemma PairTopology()
    ensures Topology(Pair())
  {
    hide ClockInv, WellFormed, Topology;
    PairIsChain();
    StuckInv();
    Chain.ChainIsProper(PAIR);
    Chain.ClockIsSound(PAIR, 0);
    InvIsTopology(Chain.Chain(PAIR), Pair());
  }

  lemma PairInReach()
    ensures WithinReach(Pair())
  {
    hide *;
    PairIsChain();
    Chain.ChainRests(PAIR);
    PairIsBoundary();
    ShallowIsWithinReach(Chain.Chain(PAIR), 0);
    StaysWithinReach(Chain.Chain(PAIR), Pair());
  }

  lemma PairIsBoundary()
    ensures PAIR.tcs == {} && PAIR.n < Chain.LONGEST
  {
  }

  lemma PairIsReady()
    ensures Ready(Pair()) && Topology(Pair()) && forall now :: Awake(Pair(), now)
  {
    hide Topology, Bests;
    PairTopology();
    PortsMatch(Pair());
  }

  /** The clock that follows keeps its record. */
  lemma RecordStays(now: int)
    ensures Topology(Pair()) && |AllDecide(Pair(), now)[1].clock.ports| == 1
    ensures AllDecide(Pair(), now)[1].clock.ports[0].records == [Heard(Ageless(), Chain.PortAt(1, 1))]
  {
    PairIsReady();
    hide Topology, Ready, ClockInv, DecidedUpTo, ClockBest, WithBest;
    var cfg, c := Chain.Config(PAIR, 1), StuckClock();
    TopologyAt(Pair(), 1);
    HearingStays(Chain.PortAt(1, 1), SLAVE, Ageless(), now);
    var d := Chosen(cfg, c, now);
    ChosenIsReady(cfg, c, now);
    Turns(cfg, d, 1, d.bestId != c.bestId, AllOk(1));
  }

  lemma SilentBest(now: int)
    ensures Bests(Pair(), 0, now) == [None]
  {
    SilentStays(Chain.PortAt(0, 1), GRAND_MASTER, now);
    hide WithBest, BestDataset, ClockBest;
  }

  /** The other one goes on announcing itself. */
  lemma Announces(now: int)
    ensures Topology(Pair()) && IsPort(AllDecide(Pair(), now), 1, 0)
    ensures Expected(AllDecide(Pair(), now), 1, 0) ==
            Some(Dataset(128, Chain.Id(0), Chain.QUALITY, 128, 128, 0, PortIdentity(Chain.Id(0), 1), PortIdentity(Chain.Id(1), 1)))
  {
    PairIsReady();
    hide Topology, Ready, Awake, AfterDecision, Bests, Concluded;
    SilentBest(now);
    DecideConcludes(Pair(), now, 0);
    Leads(AllDecide(Pair(), now));
  }

  lemma Leads(d: Net)
    requires |d| > 0 && d[0].cfg == Chain.Config(PAIR, 0) && Concluded(d, 0, [None])
    ensures Transmits(d, 0, 0) && d[0].clock.dad == OwnParent(Chain.Dds(0)) && Steps(d, 0) == 0
  {
    Chain.OneBest(Dscmp(IEEE1588), None);
    hide ClockBest, Transmits;
  }

  /** The record does not lose to what the port hears. */
  lemma IsBetter(heard: Dataset)
    requires heard.priority1 == 128 && heard.identity == Chain.Id(0)
    ensures Chain.PortAt(1, 1).cmp(heard, Candidate(Chain.PortAt(1, 1), Heard(Ageless(), Chain.PortAt(1, 1)))) < 0
  {
    Chain.DistinctIds(0, 2);
    hide Chain.Id, Dscmp2;
  }

  lemma StaysQualified(now: int)
    ensures Qualified(Heard(Ageless(), Chain.PortAt(1, 1)), now)
  {
    Prunes(Ageless(), now);
  }

  lemma AreComparable(heard: Dataset)
    requires heard.identity == Chain.Id(0) && heard.sender.clockIdentity == Chain.Id(0) && heard.receiver == PortIdentity(Chain.Id(1), 1)
    ensures var d := Candidate(Chain.PortAt(1, 1), Heard(Ageless(), Chain.PortAt(1, 1)));
            Comparable(IEEE1588, heard, d) && Comparable(IEEE1588, d, d) && d.sender != heard.sender
  {
    Chain.DistinctIds(0, 2);
    Chain.DistinctIds(1, 2);
    Chain.DistinctIds(0, 1);
    hide Chain.Id;
  }

  lemma NotOutlived(p: PortValue, heard: Dataset, now: int)
    requires p.records == [Heard(Ageless(), Chain.PortAt(1, 1))]
    requires heard.priority1 == 128 && heard.identity == Chain.Id(0) && heard.sender.clockIdentity == Chain.Id(0)
    requires heard.receiver == PortIdentity(Chain.Id(1), 1)
    ensures !Outlived(Chain.PortAt(1, 1), p, Some(heard), now) && Consistent(Chain.PortAt(1, 1), p, Some(heard), now)
  {
    hide Chain.Id, Qualified, Candidate, DscmpSets, Comparable, Heard, Ageless;
    var r := Heard(Ageless(), Chain.PortAt(1, 1));
    IsBetter(heard);
    StaysQualified(now);
    AreComparable(heard);
    IsThere(p);
    assert r == p.records[0] && r in p.records && r.sender != heard.sender;
  }

  lemma IsThere(p: PortValue)
    requires p.records == [Heard(Ageless(), Chain.PortAt(1, 1))]
    ensures p.records[0].sender == Ageless().source == Candidate(Chain.PortAt(1, 1), p.records[0]).sender
  {
  }

  /** Whenever the clocks decide, and however long they listen then, no steps make a
      round: the port keeps the record unless its timer expires, and then it is no slave. */
  lemma NeverExpires(nowA: int, b: Net, nowB: int, heard: seq<seq<Step>>)
    ensures Ready(Pair()) && Topology(Pair()) && WithinReach(Pair())
    ensures !(Taken(Pair(), nowA, b, nowB, heard) && Round(Pair(), nowA, b, nowB))
  {
    hide *;
    PairIsReady();
    PairInReach();
    if Taken(Pair(), nowA, b, nowB, heard) && Round(Pair(), nowA, b, nowB) {
      RecordStays(nowA);
      Announces(nowA);
      var d := AllDecide(Pair(), nowA);
      PairConfig(nowA);
      NotOutlived(d[1].clock.ports[0], Expected(d, 1, 0).value, nowB);
      PortHasOutlived(Pair(), nowA, b, nowB, heard, 1, 0);
    }
  }

  lemma PairConfig(now: int)
    ensures Topology(Pair()) && |AllDecide(Pair(), now)[1].cfg.ports| == 1
    ensures AllDecide(Pair(), now)[1].cfg.ports[0] == Chain.PortAt(1, 1)
  {
    PairTopology();
    hide Topology;
  }
}
