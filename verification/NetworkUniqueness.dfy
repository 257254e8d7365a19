/** A network has one state of rest: how its clocks end up does not depend on how
    they began. */
module NetworkUniqueness {
  import opened Octets
  import opened DataSets
  import opened Bmc
  import opened Fsm
  import opened PortBmc
  import opened PortTheory
  import opened ClockBmc
  import opened ClockTheory
  import opened Network
  import opened NetworkTheory
  import opened NetworkStages
  import opened NetworkSettling
  import opened NetworkConvergence

  // ---------------------------------------------------------------------
  // Rest is a stage that repeats itself
  // ---------------------------------------------------------------------

  lemma QuiescentIsStage(net: Net, now: int)
    requires Quiescent(net, now)
    ensures Topology(net) && Stage(net, net, AllBests(net, now))
  {
    hide Quiescent, Topology, ClockInv, WellFormed, Bests, Concluded;
    HasTopology(net, now);
    PortsMatch(net);
    forall n: nat | n < |net|
      ensures Hearkens(net, n, AllBests(net, now)[n]) && Concluded(net, n, AllBests(net, now)[n])
    {
      TopologyAt(net, n);
      Hears(net, now, n, 0);
      forall p: nat | p < |Bests(net, n, now)| ensures HearsPeer(net, n, p, Bests(net, n, now)[p]) {
        Hears(net, now, n, p);
      }
    }
  }

  /** Claims at rest can be traced through a region that hears nothing from outside. */
  lemma {:induction false} SoundAtRest(net: Net, now: int, u: set<nat>, n: nat)
    requires Quiescent(net, now) && Topology(net) && Shut(net, u) && n < |net| && n in u
    requires |net[n].clock.ports| == |net[n].cfg.ports|
    ensures Sound(net, u, n)
    decreases Steps(net, n)
  {
    hide Quiescent, Topology, Shut, Root, GmRank, Rank, Linked, ParentOf;
    PortsMatch(net);
    SelfSame(net);
    if Root(net, n, now) {
      RootRank(net, now, n);
      OwnOrigin(net, u, n);
    } else {
      var m := Parent(net, now, n);
      StepsAreFew(net, now, n);
      IsShut(net, u, n, m);
      SoundAtRest(net, now, u, m);
      var path :| Origin(net, u, m, path);
      ExtendedOrigin(net, net, u, n, m, path);
    }
  }

  lemma QuiescentIsSound(net: Net, now: int, u: set<nat>)
    requires Quiescent(net, now) && Shut(net, u)
    ensures AllSound(net, u)
  {
    hide Quiescent, Topology, Shut, Sound;
    HasTopology(net, now);
    PortsMatch(net);
    forall n: nat | n < |net| && n in u ensures Sound(net, u, n) {
      SoundAtRest(net, now, u, n);
    }
  }

  lemma {:induction false} QuiescentReaches(net: Net, now: int, u: set<nat>, r: nat, k: nat)
    requires Quiescent(net, now) && Shut(net, u) && BestClock(net, u, r) && k <= REACH
    ensures Reached(net, u, r, k)
  {
    hide Quiescent, Topology, BestClock, Reached, AllSound, Stage, Shut;
    if k == 0 {
      NothingReached(net, u, r);
    } else {
      QuiescentReaches(net, now, u, r, k - 1);
      QuiescentIsStage(net, now);
      QuiescentIsSound(net, now, u);
      ReachedNext(net, net, net, AllBests(net, now), AllBests(net, now), u, r, k - 1);
    }
  }

  lemma QuiescentIsSettled(net: Net, now: int, u: set<nat>)
    requires Quiescent(net, now) && Shut(net, u)
    ensures Truthful(net, u)
  {
    hide Quiescent, Topology, BestClock, Reached, AllSound, Shut;
    HasTopology(net, now);
    QuiescentIsSound(net, now, u);
    forall r: nat | BestClock(net, u, r) ensures Reached(net, u, r, REACH) {
      QuiescentReaches(net, now, u, r, REACH);
    }
  }

  /** At rest the claims of all layers are true. */
  lemma {:induction false} QuiescentIsLayered(net: Net, now: int, k: nat)
    requires Quiescent(net, now)
    ensures Shut(net, Remaining(net, k)) && Layered(net, k)
  {
    hide Quiescent, Topology, Truthful, Shut, Remaining;
    HasTopology(net, now);
    if k == 0 {
      NoLayer(net);
      AllIsShut(net);
    } else {
      QuiescentIsLayered(net, now, k - 1);
      QuiescentIsSettled(net, now, Remaining(net, k - 1));
      BeyondIsShut(net, Remaining(net, k - 1));
      OneMoreLayer(net, k);
    }
  }

  /** Rest tells who transmits on each link. */
  lemma QuiescentIsRuled(net: Net, now: int)
    requires Quiescent(net, now)
    ensures Ruled(net)
  {
    hide Quiescent, Topology, Stage, Ruled, AllSound, Shut;
    QuiescentIsStage(net, now);
    AllIsShut(net);
    QuiescentIsSound(net, now, All(net));
    SelfSame(net);
    Rules(net, net, net, AllBests(net, now), AllBests(net, now));
  }

  lemma SelfSame(net: Net)
    ensures SameTopology(net, net)
  {
  }

  // ---------------------------------------------------------------------
  // One state of rest
  // ---------------------------------------------------------------------

  /** A clock that follows a master synchronizes by the port of its best data set;
      a root by none. */
  lemma SynchronizesAt(net: Net, now: int, n: nat, p: nat)
    requires Quiescent(net, now) && IsPort(net, n, p)
    ensures Synchronizing(State(net, n, p)) <==> !Root(net, n, now) && BestPort(net, n, now) == Some(p)
  {
    RestingAt(net, now, n, p);
    HasTopology(net, now);
    hide Topology, Quiet, Quiescent, Chosen, Recommended, StateAfter;
    var d := QuietStates(net, n, now);
    QuietRecommendations(net, n, now, d, p);
    TopologyAt(net, n);
    ChosenBest(net[n].cfg, net[n].clock, now);
    RecommendedIs(net[n].cfg, d, p);
  }

  lemma HearTheSame(a: Net, nowA: int, b: Net, nowB: int, n: nat)
    requires Quiescent(a, nowA) && Quiescent(b, nowB) && Agreed(a, b) && Ruled(a) && Ruled(b) && n < |a|
    ensures AllAlike(Bests(a, n, nowA), Bests(b, n, nowB))
  {
    hide Quiescent, Topology, Concluded, Hearkens, Ruled, Bests, AllAlike;
    QuiescentIsStage(a, nowA);
    QuiescentIsStage(b, nowB);
    StageAt(a, a, AllBests(a, nowA), n);
    StageAt(b, b, AllBests(b, nowB), n);
    HearkenAlike(a, b, n, AllBests(a, nowA)[n], AllBests(b, nowB)[n]);
  }

  /** Every clock announces the same in both states, and every port has the same role. */
  ghost predicate SameRest(a: Net, b: Net) {
    && Agreed(a, b)
    && forall n: nat, p: nat | IsPort(a, n, p) ::
         && IsPort(b, n, p)
         && (Transmits(a, n, p) <==> Transmits(b, n, p))
         && (Synchronizing(State(a, n, p)) <==> Synchronizing(State(b, n, p)))
  }

  lemma SameRole(a: Net, nowA: int, b: Net, nowB: int, n: nat, p: nat)
    requires Quiescent(a, nowA) && Quiescent(b, nowB) && Agreed(a, b) && Ruled(a) && Ruled(b) && IsPort(a, n, p)
    ensures IsPort(b, n, p) && (Transmits(a, n, p) <==> Transmits(b, n, p))
    ensures Synchronizing(State(a, n, p)) <==> Synchronizing(State(b, n, p))
  {
    hide Quiescent, Topology, Ruled, Bests, Leading, AllAlike;
    HasTopology(a, nowA);
    HasTopology(b, nowB);
    PortsMatch(a);
    PortsMatch(b);
    RuledAlike(a, b, n, p);
    HearTheSame(a, nowA, b, nowB, n);
    SameNames(a, b, n);
    LeadingAlike(Own(a, n), Bests(a, n, nowA), Bests(b, n, nowB));
    SynchronizesAt(a, nowA, n, p);
    SynchronizesAt(b, nowB, n, p);
  }

  /** All states of rest of a network are alike: every clock announces the same
      grandmaster from the same distance, the same ports transmit, and the same ports
      follow a master. */
  lemma OneStateOfRest(a: Net, nowA: int, b: Net, nowB: int)
    requires Quiescent(a, nowA) && Quiescent(b, nowB) && SameTopology(a, b)
    ensures SameRest(a, b) && (Shallow(a) <==> Shallow(b))
  {
    hide Quiescent, Topology, Ruled, Layered, Remaining, Shut;
    var k := |a|;
    HasTopology(a, nowA);
    NoneRemain(a);
    QuiescentIsLayered(a, nowA, k);
    QuiescentIsLayered(b, nowB, k);
    ClaimsAgree(a, b, k);
    QuiescentIsRuled(a, nowA);
    QuiescentIsRuled(b, nowB);
    forall n: nat, p: nat | IsPort(a, n, p)
      ensures IsPort(b, n, p) && (Transmits(a, n, p) <==> Transmits(b, n, p))
      ensures Synchronizing(State(a, n, p)) <==> Synchronizing(State(b, n, p))
    {
      SameRole(a, nowA, b, nowB, n, p);
    }
    assert forall n: nat, p: nat | IsPort(b, n, p) :: IsPort(a, n, p);
  }

  /** Linked clocks announce one grandmaster. */
  ghost predicate OneGrandmaster(net: Net) {
    forall n: nat, m: nat | n < |net| && m < |net| && Linked(net, n, m) :: GmIdentity(net, n) == GmIdentity(net, m)
  }

  lemma {:induction false} AlongWalk(net: Net, path: seq<nat>)
    requires OneGrandmaster(net) && Walk(net, path)
    ensures GmIdentity(net, path[|path| - 1]) == GmIdentity(net, path[0])
  {
    hide Linked;
    if |path| > 1 {
      ShorterWalk(net, path);
      AlongWalk(net, path[..|path| - 1]);
    }
  }

  lemma BestAlongWalk(net: Net, now: int, r: nat, path: seq<nat>)
    requires Quiescent(net, now) && OneGrandmaster(net) && r < |net| && |net[r].clock.ports| == |net[r].cfg.ports|
    requires Root(net, r, now) && GmIdentity(net, r) == Identity(net, r)
    requires Walk(net, path) && path[0] == r && path[|path| - 1] != r
    ensures DscmpSets(Own(net, r), Own(net, path[|path| - 1])) > 0
  {
    hide Quiescent, OneGrandmaster, Root, DscmpSets, Linked;
    AlongWalk(net, path);
    RootIsBest(net, now, r, path[|path| - 1]);
  }

  /** Where one grandmaster is announced throughout a component, it is the best clock. */
  lemma RootIsBestClock(net: Net, now: int, r: nat)
    requires Quiescent(net, now) && OneGrandmaster(net) && r < |net| && |net[r].clock.ports| == |net[r].cfg.ports|
    requires Root(net, r, now)
    ensures BestClock(net, All(net), r)
  {
    hide Quiescent, OneGrandmaster, Root, DscmpSets, Linked;
    RootRank(net, now, r);
    forall path | WalkIn(net, All(net), path) && path[0] == r && path[|path| - 1] != r
      ensures DscmpSets(Own(net, r), Own(net, path[|path| - 1])) > 0
    {
      BestAlongWalk(net, now, r, path);
    }
  }

  /** A network at rest has one grandmaster per component exactly if every clock is
      within 255 links of the best one. */
  lemma OneGrandmasterExactly(net: Net, now: int)
    requires Quiescent(net, now)
    ensures OneGrandmaster(net) <==> WithinReach(net)
  {
    HasTopology(net, now);
    PortsMatch(net);
    hide Quiescent, Topology, Truthful, BestClock;
    if WithinReach(net) {
      AllIsShut(net);
      QuiescentIsSettled(net, now, All(net));
      hide WithinReach;
      forall n: nat, m: nat | n < |net| && m < |net| && Linked(net, n, m) ensures GmIdentity(net, n) == GmIdentity(net, m) {
        LinkClaims(net, n, m);
      }
    }
    if OneGrandmaster(net) {
      hide OneGrandmaster;
      forall n: nat | n < |net| ensures HasWay(net, All(net), n) {
        var path := ReachesRoot(net, now, n);
        WalkBack(net, path);
        StepsAreFew(net, now, n);
        RootIsBestClock(net, now, path[|path| - 1]);
        assert WayFrom(net, All(net), path[|path| - 1], n, Reversed(path));
      }
    }
  }

  /** A state of rest in which no transmitting clock is 255 steps away shows that every
      clock is within reach. */
  lemma ShallowIsWithinReach(net: Net, now: int)
    requires Quiescent(net, now) && Shallow(net)
    ensures WithinReach(net)
  {
    hide Quiescent, Shallow;
    forall n: nat, m: nat | n < |net| && m < |net| && Linked(net, n, m) ensures GmIdentity(net, n) == GmIdentity(net, m) {
      LinkAgrees(net, now, n, m);
    }
    OneGrandmasterExactly(net, now);
  }

  lemma StepsAreFew(net: Net, now: int, n: nat)
    requires Quiescent(net, now) && n < |net|
    ensures Steps(net, n) <= 255
  {
    HasTopology(net, now);
    TopologyAt(net, n);
    hide Topology;
  }

  /** Whatever states two networks of one topology begin in, they come to rest alike. */
  lemma OneDestination(xs: seq<Net>, timesX: seq<int>, ys: seq<Net>, timesY: seq<int>, i: nat, j: nat)
    requires Rounds(xs, timesX) && Rounds(ys, timesY) && SameTopology(xs[0], ys[0])
    requires RoundsFor(|xs[0]|) <= i < |xs| && RoundsFor(|xs[0]|) <= j < |ys|
    ensures SameRest(xs[i], ys[j])
  {
    hide Quiescent, Topology, Rounds, Ready, SameRest;
    RoundsLengths(xs, timesX);
    RoundsLengths(ys, timesY);
    AlwaysConverges(xs, timesX, i);
    AlwaysConverges(ys, timesY, j);
    StaysReady(xs, timesX, i);
    StaysReady(ys, timesY, j);
    OneStateOfRest(xs[i], timesX[i], ys[j], timesY[j]);
  }
}
