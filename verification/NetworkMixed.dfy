/** Who transmits on the links of a network of boundary and transparent clocks at rest. */
module NetworkMixed {
  import opened Octets
  import opened DataSets
  import opened Bmc
  import opened Fsm
  import opened ForeignMasters
  import opened PortBmc
  import opened PortTheory
  import opened ClockBmc
  import opened ClockTheory
  import opened Network
  import opened NetworkTheory
  import opened ForwardingTheory

  /** What a clock hears of one grandmaster agrees on its attributes, and is not its own. */
  ghost predicate Agreeing(net: Net, n: nat, now: int)
    requires n < |net| && |net[n].clock.ports| == |net[n].cfg.ports|
  {
    forall x, y | 0 <= x < |Bests(net, n, now)| && 0 <= y < |Bests(net, n, now)|
                  && Bests(net, n, now)[x].Some? && Bests(net, n, now)[y].Some? ::
      Comparable(IEEE1588, Bests(net, n, now)[x].value, Bests(net, n, now)[y].value)
  }

  lemma SettledAt(net: Net, now: int, n: nat, p: nat)
    requires Resting(net, now) && IsPort(net, n, p)
    ensures Topology(net) && p < |net[n].peers| == |net[n].cfg.ports| == |net[n].clock.ports|
    ensures ClockSettled(net, n, now) && Informed(net, now, n, p, Bests(net, n, now)[p])
  {
    hide Quiet, Informed, Topology, Bests, ClockSettled;
    RestingAt(net, now, n, p);
    PortsMatch(net);
    QuietIsSettled(net, n, now);
  }

  /** A silent port knows its far end, so at least one end of each link transmits. */
  lemma AnEndTransmits(net: Net, now: int, n: nat, p: nat)
    requires Resting(net, now) && IsPort(net, n, p)
    ensures var (m, q) := net[n].peers[p];
            m < |net| && (Transmits(net, n, p) || Transmits(net, m, q))
  {
    hide Quiet, Topology, Bests, Relayed, Resting;
    SettledAt(net, now, n, p);
  }

  /** What the clock of port p announces is to be preferred to what the port hears: its
      grandmaster is another, then a better one; or it is nearer; or the port has a
      lower identity than the sender, which behind transparent clocks is not the far end. */
  predicate Outranks(net: Net, n: nat, p: nat, heard: Dataset)
    requires n < |net|
  {
    || GmIdentity(net, n) != heard.identity
    || Steps(net, n) < heard.stepsRemoved
    || (Steps(net, n) == heard.stepsRemoved && PidCmp(Pid(net, n, p), heard.sender) < 0)
  }

  /** The best data set against another one, port by port, in terms of the steps that
      the clock announces. */
  lemma SilentByTopology(best: Dataset, heard: Dataset)
    requires Comparable(IEEE1588, best, heard) && DscmpSets(best, heard) >= 0
    requires best.receiver.clockIdentity == heard.receiver.clockIdentity && best.receiver != heard.receiver
    ensures DscmpSets(best, heard) == A_BETTER_TOPO <==>
            && best.identity == heard.identity
            && (|| best.stepsRemoved == heard.stepsRemoved
                || (best.stepsRemoved + 1 == heard.stepsRemoved && PidCmp(heard.receiver, heard.sender) > 0))
    ensures best.identity == heard.identity ==> best.stepsRemoved <= heard.stepsRemoved
  {
    MemcmpAntisymmetric(best.identity, heard.identity);
    PidCmpZero(best.receiver, best.sender);
    PidCmpZero(heard.receiver, heard.sender);
    PidCmpZero(best.sender, heard.sender);
  }

  /** On every port of a clock that follows another, boundary or transparent: if it
      hears something, it transmits exactly if its clock is to be preferred. */
  lemma FollowerTransmitsExactly(net: Net, now: int, n: nat, p: nat)
    requires Resting(net, now) && IsPort(net, n, p) && |net[n].clock.ports| == |net[n].cfg.ports|
    requires !Root(net, n, now) && Agreeing(net, n, now) && p < |Bests(net, n, now)| && Bests(net, n, now)[p].Some?
    ensures Transmits(net, n, p) <==> Outranks(net, n, p, Bests(net, n, now)[p].value)
  {
    hide Quiet, Topology, Bests, Resting, DscmpSets, Sends;
    SettledAt(net, now, n, p);
    var bests := Bests(net, n, now);
    var b := BestPort(net, n, now).value;
    SettledAt(net, now, n, b);
    ClockBestIsBest(IEEE1588, bests, p);
    var best, heard := bests[b].value, bests[p].value;
    PidCmpZero(heard.receiver, heard.sender);
    if p != b {
      DifferentPorts(net, n, p, b);
      SilentByTopology(best, heard);
    }
  }

  lemma DifferentPorts(net: Net, n: nat, p: nat, b: nat)
    requires Topology(net) && IsPort(net, n, p) && IsPort(net, n, b) && p != b
    ensures Pid(net, n, p) != Pid(net, n, b) && Pid(net, n, p).clockIdentity == Pid(net, n, b).clockIdentity
  {
    TopologyAt(net, n);
  }

  // ---------------------------------------------------------------------
  // Both ends of a link
  // ---------------------------------------------------------------------

  /** Who the Announces that leave by port q of clock m are from. */
  function Sender(net: Net, now: int, m: nat, q: nat): PortIdentity
    requires m < |net| && |net[m].clock.ports| == |net[m].cfg.ports|
  {
    var c := Followed(net, now, m);
    if net[m].transparent && c.Some? then c.value.sender else Pid(net, m, q)
  }

  /** Where a clock that follows another has its port in UNCALIBRATED or SLAVE. */
  lemma FollowsByBest(net: Net, now: int, m: nat)
    requires Resting(net, now) && m < |net| && |net[m].clock.ports| == |net[m].cfg.ports| && !Root(net, m, now)
    ensures var b := BestPort(net, m, now).value; IsPort(net, m, b) && Synchronizing(State(net, m, b))
  {
    var b := BestPort(net, m, now).value;
    assert Topology(net) && Quiet(net, m, now);
    TopologyAt(net, m);
    var d := QuietStates(net, m, now);
    QuietRecommendations(net, m, now, d, b);
    RecommendedIs(net[m].cfg, d, b);
  }

  /** What a clock that follows another announces or relays: its grandmaster, from its
      own distance. */
  lemma FollowerSends(net: Net, now: int, m: nat, q: nat)
    requires Resting(net, now) && IsPort(net, m, q) && |net[m].clock.ports| == |net[m].cfg.ports|
    requires !Root(net, m, now) && Transmits(net, m, q)
    ensures var dad := net[m].clock.dad;
            Sends(net, now, m, q) == Some(Content(dad.grandmasterPriority1, dad.grandmasterIdentity, dad.grandmasterClockQuality,
                                                  dad.grandmasterPriority2, Steps(net, m), Sender(net, now, m, q)))
  {
    hide Topology, Quiet, Bests, Resting;
    SettledAt(net, now, m, q);
    if net[m].transparent {
      FollowsByBest(net, now, m);
      var b := BestPort(net, m, now).value;
      SettledAt(net, now, m, b);
      RelaysFollowed(net, now, m, q, b);
    }
  }

  /** The far end of a port, and what the port hears of it. */
  lemma HearsFollower(net: Net, now: int, n: nat, p: nat)
    requires Resting(net, now) && IsPort(net, n, p) && |net[n].clock.ports| == |net[n].cfg.ports|
    ensures var (m, q) := net[n].peers[p];
            && IsPort(net, m, q) && |net[m].clock.ports| == |net[m].cfg.ports| && net[m].peers[q] == (n, p)
            && (!Root(net, m, now) && Transmits(net, m, q) && Steps(net, m) < 255 && p < |Bests(net, n, now)| ==>
                  && var h := Bests(net, n, now)[p];
                  && h.Some? && h.value.identity == GmIdentity(net, m) && Rank(h.value) == GmRank(net, m)
                  && h.value.stepsRemoved == Steps(net, m) && h.value.sender == Sender(net, now, m, q))
  {
    var (m, q) := net[n].peers[p];
    SettledAt(net, now, n, p);
    LinkBack(net, n, p);
    PortsMatch(net);
    hide Topology, Quiet, Bests, Resting, Sends, Sender;
    if !Root(net, m, now) && Transmits(net, m, q) {
      FollowerSends(net, now, m, q);
    }
  }

  /** A port that transmits to one that does too hears nothing better. */
  lemma HearsNoBetter(net: Net, now: int, n: nat, p: nat)
    requires Resting(net, now) && IsPort(net, n, p) && |net[n].clock.ports| == |net[n].cfg.ports|
    requires !Root(net, n, now) && Agreeing(net, n, now) && p < |Bests(net, n, now)| && Bests(net, n, now)[p].Some?
    ensures var h := Bests(net, n, now)[p].value;
            GmIdentity(net, n) != h.identity ==> Memcmp(GmRank(net, n), Rank(h)) < 0
  {
    hide Quiet, Topology, Bests, Resting, DscmpSets, Memcmp;
    SettledAt(net, now, n, p);
    var bests, b := Bests(net, n, now), BestPort(net, n, now).value;
    ClockBestIsBest(IEEE1588, bests, p);
    var best, heard := bests[b].value, bests[p].value;
    if best.identity != heard.identity {
      DscmpDifferentIdentity(best, heard);
      MemcmpAntisymmetric(Rank(best), Rank(heard));
    }
  }

  /** Two clocks that each follow another, at the ends of one link: both transmit exactly
      if they announce the same grandmaster from the same distance, and each end has a
      lower identity than the sender of what comes from the other.  Between boundary
      clocks that cannot be, as the sender is the far end. */
  lemma BothTransmitExactly(net: Net, now: int, n: nat, p: nat, m: nat, q: nat)
    requires Resting(net, now) && IsPort(net, n, p) && net[n].peers[p] == (m, q) && IsPort(net, m, q)
    requires |net[n].clock.ports| == |net[n].cfg.ports| && |net[m].clock.ports| == |net[m].cfg.ports|
    requires !Root(net, n, now) && !Root(net, m, now) && Agreeing(net, n, now) && Agreeing(net, m, now)
    requires Steps(net, n) < 255 && Steps(net, m) < 255
    ensures Transmits(net, n, p) && Transmits(net, m, q) <==>
            && GmIdentity(net, n) == GmIdentity(net, m) && Steps(net, n) == Steps(net, m)
            && PidCmp(Pid(net, n, p), Sender(net, now, m, q)) < 0 && PidCmp(Pid(net, m, q), Sender(net, now, n, p)) < 0
    ensures !net[n].transparent && !net[m].transparent ==> !(Transmits(net, n, p) && Transmits(net, m, q))
  {
    hide Topology, Quiet, Bests, Resting, Sends, Followed, Agreeing, Memcmp, Transmits, Root, GmRank, Rank;
    SettledAt(net, now, n, p);
    SettledAt(net, now, m, q);
    HearsFollower(net, now, n, p);
    HearsFollower(net, now, m, q);
    AnEndTransmits(net, now, n, p);
    PidCmpZero(Pid(net, n, p), Pid(net, m, q));
    if Transmits(net, m, q) {
      FollowerTransmitsExactly(net, now, n, p);
      HearsNoBetter(net, now, n, p);
    }
    if Transmits(net, n, p) {
      FollowerTransmitsExactly(net, now, m, q);
      HearsNoBetter(net, now, m, q);
    }
    MemcmpAntisymmetric(GmRank(net, n), GmRank(net, m));
  }
}
