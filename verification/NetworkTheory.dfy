/** The state decisions of a network at rest elect one grandmaster per connected
    component and span it with a shortest path tree (sections 9.3.3 and 9.3.4
    of IEEE Std 1588-2008). */
module NetworkTheory {
  import opened Octets
  import opened DataSets
  import opened Bmc
  import opened Fsm
  import opened PortBmc
  import opened PortTheory
  import opened ClockBmc
  import opened ClockTheory
  import opened Network

  /** No transmitting port announces 255 steps or more, the number from which
      on Announces are not qualified. */
  ghost predicate Shallow(net: Net) {
    forall n: nat, p: nat | IsPort(net, n, p) && Transmits(net, n, p) :: Steps(net, n) < 255
  }

  function GmIdentity(net: Net, n: nat): ClockIdentity
    requires n < |net|
  {
    net[n].clock.dad.grandmasterIdentity
  }

  /** The rank of the grandmaster that a clock announces; smaller is better. */
  function GmRank(net: Net, n: nat): (k: seq<nat>)
    requires n < |net|
    ensures |k| == 13
  {
    var dad := net[n].clock.dad;
    var q := dad.grandmasterClockQuality;
    [dad.grandmasterPriority1, q.clockClass, q.clockAccuracy, q.offsetScaledLogVariance, dad.grandmasterPriority2]
    + dad.grandmasterIdentity
  }

  function Rank(d: Dataset): (k: seq<nat>)
    ensures |k| == 13
  {
    Attributes(d) + d.identity
  }

  function Own(net: Net, n: nat): Dataset
    requires n < |net|
  {
    DefaultDataset(net[n].cfg.dds)
  }

  lemma RankIdentity(a: Dataset, b: Dataset)
    requires Rank(a) == Rank(b)
    ensures a.identity == b.identity && Attributes(a) == Attributes(b)
  {
    assert Rank(a)[5..] == a.identity && Rank(b)[5..] == b.identity;
    assert Rank(a)[..5] == Attributes(a) && Rank(b)[..5] == Attributes(b);
  }

  // ---------------------------------------------------------------------
  // Links
  // ---------------------------------------------------------------------

  /** A data set that says what port q of clock m announces. */
  ghost predicate Announced(net: Net, d: Dataset, m: nat, q: nat)
    requires m < |net|
  {
    ContentOf(d) == OwnAnnounce(net, m, q)
  }

  lemma HasTopology(net: Net, now: int)
    requires Quiescent(net, now)
    ensures Topology(net)
  {
    hide Topology;
  }

  /** What port p hears is what its far end announces. */
  lemma Hears(net: Net, now: int, n: nat, p: nat)
    requires Quiescent(net, now) && IsPort(net, n, p)
    ensures p < |Bests(net, n, now)| && ClockSettled(net, n, now)
    ensures var (m, q) := net[n].peers[p];
            var best := Bests(net, n, now)[p];
            && IsPort(net, m, q)
            && (best.Some? <==> Transmits(net, m, q) && Steps(net, m) < 255)
            && (best.Some? ==> Announced(net, best.value, m, q) && best.value.receiver == Pid(net, n, p))
  {
    RestingAt(net, now, n, p);
    QuietIsSettled(net, n, now);
    BoundarySends(net, now, n, p, Bests(net, n, now)[p]);
    hide ClockSettled, Bests, Quiet, Resting, Topology, Informed, Relayed;
  }

  lemma BoundarySends(net: Net, now: int, n: nat, p: nat, best: Option<Dataset>)
    requires IsPort(net, n, p) && Informed(net, now, n, p, best) && !net[net[n].peers[p].0].transparent
    ensures var (m, q) := net[n].peers[p];
            && (best.Some? <==> Transmits(net, m, q) && Steps(net, m) < 255)
            && (best.Some? ==> Announced(net, best.value, m, q) && best.value.receiver == Pid(net, n, p))
  {
  }

  lemma AnnouncedRank(net: Net, d: Dataset, m: nat, q: nat)
    requires m < |net| && Announced(net, d, m, q)
    ensures Rank(d) == GmRank(net, m) && d.identity == GmIdentity(net, m)
  {
  }

  lemma HeardRank(net: Net, now: int, n: nat, p: nat)
    requires Quiescent(net, now) && IsPort(net, n, p) && Bests(net, n, now)[p].Some?
    ensures var d, m := Bests(net, n, now)[p].value, net[n].peers[p].0;
            m < |net| && Rank(d) == GmRank(net, m) && d.identity == GmIdentity(net, m)
  {
    Hears(net, now, n, p);
    AnnouncedRank(net, Bests(net, n, now)[p].value, net[n].peers[p].0, net[n].peers[p].1);
  }

  /** A silent port hears a transmitting far end. */
  lemma SilentHears(net: Net, now: int, n: nat, p: nat)
    requires Quiescent(net, now) && IsPort(net, n, p) && !Transmits(net, n, p)
    ensures Bests(net, n, now)[p].Some? && !Root(net, n, now)
    ensures var (m, q) := net[n].peers[p]; Transmits(net, m, q)
  {
    Hears(net, now, n, p);
  }

  // ---------------------------------------------------------------------
  // Where an announced grandmaster comes from
  // ---------------------------------------------------------------------

  /** A walk along links. */
  ghost predicate Walk(net: Net, path: seq<nat>) {
    && path != []
    && (forall i | 0 <= i < |path| :: path[i] < |net|)
    && (forall i | 0 <= i < |path| - 1 :: Linked(net, path[i], path[i + 1]))
  }

  ghost predicate Linked(net: Net, n: nat, m: nat) {
    exists p: nat :: IsPort(net, n, p) && net[n].peers[p].0 == m
  }

  /** m is the far end of the port that clock n follows. */
  ghost predicate ParentOf(net: Net, now: int, n: nat, m: nat)
    requires Topology(net) && n < |net|
  {
    !Root(net, n, now) && net[n].peers[BestPort(net, n, now).value].0 == m
  }

  /** A walk along parents. */
  ghost predicate ParentWalk(net: Net, now: int, path: seq<nat>)
    requires Topology(net)
  {
    && Walk(net, path)
    && (forall i | 0 <= i < |path| - 1 :: ParentOf(net, now, path[i], path[i + 1]))
  }

  lemma Parent(net: Net, now: int, n: nat) returns (m: nat)
    requires Quiescent(net, now) && n < |net| && !Root(net, n, now)
    ensures ParentOf(net, now, n, m) && m < |net| && Linked(net, n, m) && Linked(net, m, n)
    ensures Steps(net, n) == 1 + Steps(net, m)
    ensures GmRank(net, n) == GmRank(net, m) && GmIdentity(net, n) == GmIdentity(net, m)
  {
    var b := BestPort(net, n, now).value;
    Hears(net, now, n, b);
    var q := net[n].peers[b].1;
    m := net[n].peers[b].0;
    AnnouncedRank(net, Bests(net, n, now)[b].value, m, q);
  }

  lemma RootRank(net: Net, now: int, r: nat)
    requires Quiescent(net, now) && r < |net| && Root(net, r, now)
    ensures Steps(net, r) == 0 && GmRank(net, r) == Rank(Own(net, r)) && GmIdentity(net, r) == Identity(net, r)
  {
    Hears(net, now, r, 0);
  }

  lemma ExtendWalk(net: Net, now: int, n: nat, rest: seq<nat>)
    requires Topology(net) && n < |net| && ParentWalk(net, now, rest)
    requires Linked(net, n, rest[0]) && ParentOf(net, now, n, rest[0])
    ensures ParentWalk(net, now, [n] + rest)
  {
    hide Topology, Linked, ParentOf;
    var path := [n] + rest;
    forall i | 0 <= i < |path| - 1 ensures Linked(net, path[i], path[i + 1]) && ParentOf(net, now, path[i], path[i + 1]) {
      if i > 0 {
        assert path[i] == rest[i - 1] && path[i + 1] == rest[i];
      }
    }
  }

  lemma WalkOfOne(net: Net, now: int, n: nat)
    requires Topology(net) && n < |net|
    ensures ParentWalk(net, now, [n])
  {
    hide Topology, Linked, ParentOf;
  }

  /** Following parents from any clock reaches, in stepsRemoved steps, a clock
      that is the grandmaster it announces. */
  lemma {:induction false} ReachesRoot(net: Net, now: int, n: nat) returns (path: seq<nat>)
    requires Quiescent(net, now) && n < |net|
    ensures ParentWalk(net, now, path) && |path| == Steps(net, n) + 1 && path[0] == n
    ensures var r := path[|path| - 1];
            Root(net, r, now) && GmRank(net, n) == Rank(Own(net, r)) && GmIdentity(net, n) == Identity(net, r)
    decreases Steps(net, n)
  {
    hide Quiescent, Topology, Rank, GmRank, GmIdentity, Own, Root, Linked, ParentOf, Walk;
    HasTopology(net, now);
    PortsMatch(net);
    if Root(net, n, now) {
      RootRank(net, now, n);
      WalkOfOne(net, now, n);
      path := [n];
    } else {
      var m := Parent(net, now, n);
      var rest := ReachesRoot(net, now, m);
      ExtendWalk(net, now, n, rest);
      path := [n] + rest;
      assert path[|path| - 1] == rest[|rest| - 1];
    }
  }

  /** One grandmaster identity stands for one set of attributes. */
  lemma SameGrandmaster(net: Net, now: int, n: nat, m: nat)
    requires Quiescent(net, now) && n < |net| && m < |net| && GmIdentity(net, n) == GmIdentity(net, m)
    ensures GmRank(net, n) == GmRank(net, m)
  {
    var a := ReachesRoot(net, now, n);
    var b := ReachesRoot(net, now, m);
    var r, s := a[|a| - 1], b[|b| - 1];
    assert Identity(net, r) == Identity(net, s);
  }

  // ---------------------------------------------------------------------
  // The data sets a clock compares
  // ---------------------------------------------------------------------

  lemma HeardPids(net: Net, now: int, n: nat, p: nat)
    requires Quiescent(net, now) && IsPort(net, n, p) && Bests(net, n, now)[p].Some?
    ensures Bests(net, n, now)[p].value.sender != Bests(net, n, now)[p].value.receiver
  {
    Hears(net, now, n, p);
    var (m, q) := net[n].peers[p];
    assert Identity(net, n) != Identity(net, m);
  }

  lemma HeardComparable(net: Net, now: int, n: nat, p: nat, x: nat)
    requires Quiescent(net, now) && IsPort(net, n, p) && IsPort(net, n, x)
    requires Bests(net, n, now)[p].Some? && Bests(net, n, now)[x].Some?
    ensures Comparable(IEEE1588, Bests(net, n, now)[p].value, Bests(net, n, now)[x].value)
  {
    var a, b := Bests(net, n, now)[p].value, Bests(net, n, now)[x].value;
    HeardPids(net, now, n, p);
    HeardPids(net, now, n, x);
    Hears(net, now, n, p);
    Hears(net, now, n, x);
    var (m, q) := net[n].peers[p];
    var (k, y) := net[n].peers[x];
    AnnouncedRank(net, a, m, q);
    AnnouncedRank(net, b, k, y);
    if a.identity == b.identity {
      SameGrandmaster(net, now, m, k);
      RankIdentity(a, b);
    }
  }

  /** The best data set is not beaten by any that the clock hears. */
  lemma HeardBest(net: Net, now: int, n: nat, p: nat)
    requires Quiescent(net, now) && IsPort(net, n, p) && Bests(net, n, now)[p].Some?
    ensures BestPort(net, n, now).Some?
    ensures DscmpSets(Bests(net, n, now)[BestPort(net, n, now).value].value, Bests(net, n, now)[p].value) >= 0
  {
    var bests := Bests(net, n, now);
    forall i, j | 0 <= i < |bests| && 0 <= j < |bests| && bests[i].Some? && bests[j].Some?
      ensures Comparable(IEEE1588, bests[i].value, bests[j].value)
    {
      HeardComparable(net, now, n, i, j);
    }
    ClockBestIsBest(IEEE1588, bests, p);
  }

  // ---------------------------------------------------------------------
  // Who transmits on a link
  // ---------------------------------------------------------------------

  /** The near end of a link is preferred to the far end: it announces a better
      grandmaster, or the same one from nearer, or ports break the tie. */
  predicate Prefers(net: Net, n: nat, p: nat, m: nat, q: nat)
    requires n < |net| && m < |net|
  {
    if GmIdentity(net, n) != GmIdentity(net, m) then Memcmp(GmRank(net, n), GmRank(net, m)) < 0
    else || Steps(net, n) < Steps(net, m)
         || (Steps(net, n) == Steps(net, m) && PidCmp(Pid(net, n, p), Pid(net, m, q)) < 0)
  }

  lemma RootPrefers(net: Net, now: int, n: nat, p: nat)
    requires Quiescent(net, now) && IsPort(net, n, p) && Root(net, n, now) && Bests(net, n, now)[p].Some?
    ensures var (m, q) := net[n].peers[p]; m < |net| && Prefers(net, n, p, m, q)
  {
    var m := net[n].peers[p].0;
    assert Identity(net, n) != Identity(net, m);
    RootRank(net, now, n);
    if GmIdentity(net, m) == Identity(net, n) {
      if Root(net, m, now) {
        RootRank(net, now, m);
      } else {
        var k := Parent(net, now, m);
      }
    } else {
      RootRanksBetter(net, now, n, p);
    }
  }

  lemma RootRanksBetter(net: Net, now: int, n: nat, p: nat)
    requires Quiescent(net, now) && IsPort(net, n, p) && Root(net, n, now) && Bests(net, n, now)[p].Some?
    requires var m := net[n].peers[p].0; GmIdentity(net, m) != Identity(net, n)
    ensures var m := net[n].peers[p].0; Memcmp(GmRank(net, n), GmRank(net, m)) < 0
  {
    HeardBest(net, now, n, p);
    var b := BestPort(net, n, now).value;
    var d, r := Bests(net, n, now)[b].value, Bests(net, n, now)[p].value;
    RootRank(net, now, n);
    HeardRank(net, now, n, p);
    HeardRank(net, now, n, b);
    HeardComparable(net, now, n, b, p);
    RootBeats(net, now, n, net[n].peers[b].0, Own(net, n), d, r);
  }

  /** own > d >= r, where d may name the clock's own identity. */
  lemma RootBeats(net: Net, now: int, n: nat, k: nat, own: Dataset, d: Dataset, r: Dataset)
    requires Quiescent(net, now) && n < |net| && k < |net|
    requires own.identity != r.identity && SameAttributes(d, r)
    requires DscmpSets(own, d) > 0 && DscmpSets(d, r) >= 0
    requires Rank(own) == GmRank(net, n) && own.identity == GmIdentity(net, n)
    requires Rank(d) == GmRank(net, k) && d.identity == GmIdentity(net, k)
    ensures Memcmp(Rank(own), Rank(r)) < 0
  {
    MemcmpAntisymmetric(Rank(own), Rank(d));
    MemcmpAntisymmetric(Rank(d), Rank(r));
    if own.identity == d.identity {
      SameGrandmaster(net, now, n, k);
      DscmpDifferentIdentity(d, r);
    } else if d.identity == r.identity {
      DscmpDifferentIdentity(own, d);
    } else {
      DscmpDifferentIdentity(own, d);
      DscmpDifferentIdentity(d, r);
      MemcmpTransitive(Rank(own), Rank(d), Rank(r));
    }
  }

  /** A port of a clock that follows another port transmits only when the clock
      would rather be followed than follow. */
  lemma FollowerPrefers(net: Net, now: int, n: nat, p: nat)
    requires Quiescent(net, now) && IsPort(net, n, p) && !Root(net, n, now) && Transmits(net, n, p)
    requires Bests(net, n, now)[p].Some?
    ensures var (m, q) := net[n].peers[p]; m < |net| && Prefers(net, n, p, m, q)
  {
    hide Quiescent, Topology, Bests, DscmpSets, Memcmp;
    HasTopology(net, now);
    PortsMatch(net);
    var b := BestPort(net, n, now).value;
    var d, r := Bests(net, n, now)[b].value, Bests(net, n, now)[p].value;
    var k, y := net[n].peers[b].0, net[n].peers[b].1;
    var m, q := net[n].peers[p].0, net[n].peers[p].1;
    Hears(net, now, n, p);
    Hears(net, now, n, b);
    AnnouncedRank(net, r, m, q);
    AnnouncedRank(net, d, k, y);
    HeardBest(net, now, n, p);
    assert GmRank(net, n) == Rank(d) && GmIdentity(net, n) == d.identity;
    if d.identity != r.identity {
      MemcmpAntisymmetric(Rank(d), Rank(r));
      DscmpDifferentIdentity(d, r);
    } else {
      DifferentSenders(net, n, p, b);
      HeardPids(net, now, n, p);
      HeardPids(net, now, n, b);
      NotBetterByTopology(d, r);
    }
  }

  lemma DifferentSenders(net: Net, n: nat, p: nat, b: nat)
    requires Topology(net) && IsPort(net, n, p) && IsPort(net, n, b) && p != b
    ensures var (m, q) := net[n].peers[p]; var (k, y) := net[n].peers[b];
            Pid(net, m, q) != Pid(net, k, y)
  {
    var (m, q) := net[n].peers[p];
    var (k, y) := net[n].peers[b];
    if m == k {
      assert q != y;
    } else {
      assert Identity(net, m) != Identity(net, k);
    }
  }

  /** What is left when the comparison is neither worse nor better by topology. */
  lemma NotBetterByTopology(d: Dataset, r: Dataset)
    requires d.identity == r.identity && d.sender != r.sender && d.sender != d.receiver && r.sender != r.receiver
    requires DscmpSets(d, r) >= 0 && DscmpSets(d, r) != A_BETTER_TOPO
    ensures d.stepsRemoved + 1 < r.stepsRemoved
            || (d.stepsRemoved + 1 == r.stepsRemoved && PidCmp(r.receiver, r.sender) < 0)
  {
    MemcmpAntisymmetric(d.identity, r.identity);
    PidCmpZero(d.sender, r.sender);
    PidCmpZero(d.receiver, d.sender);
    PidCmpZero(r.receiver, r.sender);
  }

  lemma TransmitterPrefers(net: Net, now: int, n: nat, p: nat)
    requires Quiescent(net, now) && IsPort(net, n, p) && Transmits(net, n, p) && Bests(net, n, now)[p].Some?
    ensures var (m, q) := net[n].peers[p]; m < |net| && Prefers(net, n, p, m, q)
  {
    if Root(net, n, now) {
      RootPrefers(net, now, n, p);
    } else {
      FollowerPrefers(net, now, n, p);
    }
  }

  /** Exactly one end of a link transmits. */
  ghost predicate OneTransmits(net: Net, n: nat, p: nat)
    requires Topology(net) && IsPort(net, n, p)
  {
    var (m, q) := net[n].peers[p];
    Transmits(net, n, p) != Transmits(net, m, q)
  }

  lemma NotBoth(net: Net, now: int, n: nat, p: nat)
    requires Quiescent(net, now) && Shallow(net) && IsPort(net, n, p)
    ensures OneTransmits(net, n, p)
  {
    var m, q := net[n].peers[p].0, net[n].peers[p].1;
    if !Transmits(net, n, p) {
      SilentHears(net, now, n, p);
    } else if Transmits(net, m, q) {
      Hears(net, now, n, p);
      Hears(net, now, m, q);
      TransmitterPrefers(net, now, n, p);
      TransmitterPrefers(net, now, m, q);
      MemcmpAntisymmetric(GmRank(net, n), GmRank(net, m));
      PidCmpZero(Pid(net, n, p), Pid(net, m, q));
      assert false;
    }
  }

  /** In every quiescent network exactly one end of each link transmits
      Announces, if and only if no transmitting port is 255 or more steps away
      from its grandmaster. */
  lemma OneTransmitterPerLink(net: Net, now: int)
    requires Quiescent(net, now)
    ensures (forall n: nat, p: nat | IsPort(net, n, p) :: OneTransmits(net, n, p)) <==> Shallow(net)
  {
    if Shallow(net) {
      forall n: nat, p: nat | IsPort(net, n, p) ensures OneTransmits(net, n, p) {
        NotBoth(net, now, n, p);
      }
    } else {
      var n: nat, p: nat :| IsPort(net, n, p) && Transmits(net, n, p) && Steps(net, n) >= 255;
      var m, q := net[n].peers[p].0, net[n].peers[p].1;
      Hears(net, now, m, q);
      if !Transmits(net, m, q) {
        SilentHears(net, now, m, q);
      }
      assert !OneTransmits(net, n, p);
    }
  }

  // ---------------------------------------------------------------------
  // The spanning tree
  // ---------------------------------------------------------------------

  /** The ends of a link announce the same grandmaster, from distances that
      differ by one step at most. */
  lemma LinkAgrees(net: Net, now: int, n: nat, m: nat)
    requires Quiescent(net, now) && Shallow(net) && n < |net| && Linked(net, n, m)
    ensures m < |net| && GmIdentity(net, n) == GmIdentity(net, m)
    ensures Steps(net, n) <= Steps(net, m) + 1 && Steps(net, m) <= Steps(net, n) + 1
  {
    var p: nat :| IsPort(net, n, p) && net[n].peers[p].0 == m;
    var q := net[n].peers[p].1;
    NotBoth(net, now, n, p);
    if Transmits(net, n, p) {
      SilentEndAgrees(net, now, m, q);
    } else {
      SilentEndAgrees(net, now, n, p);
    }
  }

  lemma SilentEndAgrees(net: Net, now: int, n: nat, p: nat)
    requires Quiescent(net, now) && IsPort(net, n, p) && !Transmits(net, n, p)
    ensures var m := net[n].peers[p].0;
            && m < |net| && GmIdentity(net, n) == GmIdentity(net, m)
            && Steps(net, m) <= Steps(net, n) <= Steps(net, m) + 1
  {
    SilentHears(net, now, n, p);
    Hears(net, now, n, p);
    HeardRank(net, now, n, p);
    var b := BestPort(net, n, now).value;
    if p != b {
      TopologyTies(Bests(net, n, now)[b].value, Bests(net, n, now)[p].value);
    }
  }

  /** Only data sets of one grandmaster compare as better by topology. */
  lemma TopologyTies(d: Dataset, r: Dataset)
    requires DscmpSets(d, r) == A_BETTER_TOPO
    ensures d.identity == r.identity && d.stepsRemoved <= r.stepsRemoved <= d.stepsRemoved + 1
  {
    MemcmpAntisymmetric(d.identity, r.identity);
  }

  /** Along any walk the grandmaster stays the same and the distance changes by
      one step per link at most. */
  lemma {:induction false} WalkAgrees(net: Net, now: int, path: seq<nat>)
    requires Quiescent(net, now) && Shallow(net) && Walk(net, path)
    ensures var n, m := path[0], path[|path| - 1];
            GmIdentity(net, n) == GmIdentity(net, m) && Steps(net, m) <= Steps(net, n) + |path| - 1
  {
    hide Resting, Topology, Shallow, Quiescent;
    if |path| > 1 {
      var rest := path[1..];
      assert forall i | 0 <= i < |rest| - 1 :: rest[i] == path[i + 1] && Linked(net, path[i + 1], path[i + 2]);
      WalkAgrees(net, now, rest);
      assert Linked(net, path[0], path[1]);
      LinkAgrees(net, now, path[0], path[1]);
    }
  }

  /** Each connected component of a quiescent network has one root, its
      grandmaster: from every clock the parents lead there in stepsRemoved
      steps, which no walk from the root undercuts, and the default data set of
      the root beats that of every other clock of the component. */
  lemma ShortestPathTree(net: Net, now: int, n: nat) returns (up: seq<nat>)
    requires Quiescent(net, now) && Shallow(net) && n < |net|
    ensures ParentWalk(net, now, up) && |up| == Steps(net, n) + 1 && up[0] == n
    ensures var r := up[|up| - 1];
            && Root(net, r, now) && GmIdentity(net, n) == Identity(net, r)
            && (forall path {:trigger Walk(net, path)} | Walk(net, path) && path[0] == r ::
                  var m := path[|path| - 1];
                  && GmIdentity(net, m) == Identity(net, r)
                  && Steps(net, m) <= |path| - 1
                  && (Root(net, m, now) ==> m == r)
                  && (m != r ==> DscmpSets(Own(net, r), Own(net, m)) > 0))
  {
    up := ReachesRoot(net, now, n);
    var r := up[|up| - 1];
    RootRank(net, now, r);
    forall path | Walk(net, path) && path[0] == r
      ensures var m := path[|path| - 1];
              && GmIdentity(net, m) == Identity(net, r)
              && Steps(net, m) <= |path| - 1
              && (Root(net, m, now) ==> m == r)
              && (m != r ==> DscmpSets(Own(net, r), Own(net, m)) > 0)
    {
      var m := path[|path| - 1];
      WalkAgrees(net, now, path);
      RootIsBest(net, now, r, m);
    }
  }

  lemma RootIsBest(net: Net, now: int, r: nat, m: nat)
    requires Quiescent(net, now) && r < |net| && m < |net|
    requires Root(net, r, now) && GmIdentity(net, m) == Identity(net, r)
    ensures Root(net, m, now) ==> m == r
    ensures m != r ==> DscmpSets(Own(net, r), Own(net, m)) > 0
  {
    RootRank(net, now, r);
    if m != r {
      assert Identity(net, m) != Identity(net, r);
      if Root(net, m, now) {
        RootRank(net, now, m);
      } else {
        SameGrandmaster(net, now, m, r);
        var b := BestPort(net, m, now).value;
        var d := Bests(net, m, now)[b].value;
        HeardRank(net, now, m, b);
        var k := Parent(net, now, m);
        DscmpDifferentIdentity(Own(net, m), d);
        DscmpDifferentIdentity(Own(net, r), Own(net, m));
        MemcmpAntisymmetric(Rank(Own(net, m)), Rank(d));
      }
    }
  }
}
