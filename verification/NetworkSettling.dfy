/** What clocks announce settles, one layer after the other: claims that nobody makes
    die out, the best clocks are heard at every distance, the clocks beyond their reach
    are left to themselves, and links agree who transmits. */
module NetworkSettling {
  import opened Octets
  import opened DataSets
  import opened Bmc
  import opened PortBmc
  import opened ClockBmc
  import opened Network
  import opened NetworkTheory
  import opened NetworkStages

  /** The number of clocks on the longest way that an Announce is carried. */
  const REACH := 256

  type Bestss = seq<seq<Option<Dataset>>>

  ghost predicate Stages(ds: seq<Net>, bestss: seq<Bestss>) {
    |ds| == |bestss| + 1 && forall i | 0 <= i < |bestss| :: Stage(ds[i], ds[i + 1], bestss[i])
  }

  lemma StagesAt(ds: seq<Net>, bestss: seq<Bestss>, i: nat)
    requires Stages(ds, bestss) && i + 1 < |ds|
    ensures i < |bestss| && Stage(ds[i], ds[i + 1], bestss[i])
  {
    hide Stage;
  }

  /** Throughout the stages the region hears nothing from outside. */
  ghost predicate AlwaysShut(ds: seq<Net>, u: set<nat>) {
    forall i | 0 <= i < |ds| :: Shut(ds[i], u)
  }

  lemma ShutAt(ds: seq<Net>, u: set<nat>, i: nat)
    requires AlwaysShut(ds, u) && i < |ds|
    ensures Shut(ds[i], u)
  {
    hide Shut;
  }

  /** After i stages claims that cannot be traced to a clock of the region are i steps
      old at least, and after 256 there are none. */
  lemma {:induction false} PhantomsDie(ds: seq<Net>, bestss: seq<Bestss>, u: set<nat>, i: nat)
    requires Stages(ds, bestss) && AlwaysShut(ds, u) && i < |ds|
    ensures SoundBelow(ds[i], u, i) && (i >= REACH ==> AllSound(ds[i], u))
  {
    hide Stages, Stage, Sound, AlwaysShut, Shut;
    if i > 0 {
      PhantomsDie(ds, bestss, u, i - 1);
      StagesAt(ds, bestss, i - 1);
      ShutAt(ds, u, i - 1);
      NextIsSounder(ds[i - 1], ds[i], bestss[i - 1], u, i - 1);
    }
  }

  // ---------------------------------------------------------------------
  // Distances
  // ---------------------------------------------------------------------

  /** The clock at the end of a walk from clock r announces r, from no farther away
      than the walk is long. */
  ghost predicate Reaches(net: Net, r: nat, walk: seq<nat>)
    requires Walk(net, walk)
  {
    var n := walk[|walk| - 1];
    r < |net| && GmIdentity(net, n) == Identity(net, r) && Steps(net, n) <= |walk| - 1
  }

  ghost predicate Reached(net: Net, u: set<nat>, r: nat, k: nat) {
    forall walk {:trigger WalkIn(net, u, walk)} | WalkIn(net, u, walk) && walk[0] == r && |walk| <= k :: Reaches(net, r, walk)
  }

  /** Two stages in a row, from claims in the region that can all be traced. */
  ghost predicate TwoStages(a: Net, b: Net, c: Net, bs: Bestss, cs: Bestss, u: set<nat>) {
    Stage(a, b, bs) && Stage(b, c, cs) && AllSound(a, u) && AllSound(b, u) && Shut(b, u)
  }

  /** The best clock is heard one link further. */
  lemma {:induction false} ReachesNext(
    a: Net, b: Net, c: Net, bs: Bestss, cs: Bestss, u: set<nat>, r: nat, k: nat, walk: seq<nat>)
    requires TwoStages(a, b, c, bs, cs, u) && BestClock(b, u, r) && Reached(b, u, r, k) && k < REACH
    requires WalkIn(c, u, walk) && walk[0] == r && |walk| <= k + 1
    ensures Reaches(c, r, walk)
    decreases |walk|
  {
    hide Topology, StageOf, BestClock, AllSound, Reached, Concluded, Hearkens, Shut, Linked;
    var n := walk[|walk| - 1];
    if n == r {
      BestIsHeard(a, b, c, bs, cs, u, r);
    } else {
      var before := walk[..|walk| - 1];
      ShorterWalkIn(c, u, walk);
      SameWalkIn(c, b, u, before);
      ReachedBy(b, u, r, k, before);
      var m := before[|before| - 1];
      var q := PortTowards(b, c, m, n);
      StageAt(b, c, cs, n);
      if Transmits(b, m, q) {
        HearsOfBest(b, c, u, r, n, cs[n], m, q, walk);
      } else {
        var shorter := ShorterWay(a, b, c, bs, u, r, n, m, q, walk);
        ReachesNext(a, b, c, bs, cs, u, r, k, shorter);
      }
    }
  }

  lemma ReachedBy(net: Net, u: set<nat>, r: nat, k: nat, walk: seq<nat>)
    requires Reached(net, u, r, k) && WalkIn(net, u, walk) && walk[0] == r && |walk| <= k
    ensures Reaches(net, r, walk)
  {
  }

  lemma ShorterWalk(net: Net, walk: seq<nat>)
    requires Walk(net, walk) && |walk| > 1
    ensures var before := walk[..|walk| - 1];
            Walk(net, before) && before[0] == walk[0]
            && Linked(net, before[|before| - 1], walk[|walk| - 1])
  {
    var before := walk[..|walk| - 1];
    assert Linked(net, walk[|walk| - 2], walk[|walk| - 1]);
    forall i | 0 <= i < |before| - 1 ensures Linked(net, before[i], before[i + 1]) {
      assert Linked(net, walk[i], walk[i + 1]);
    }
  }

  lemma ShorterWalkIn(net: Net, u: set<nat>, walk: seq<nat>)
    requires WalkIn(net, u, walk) && |walk| > 1
    ensures var before := walk[..|walk| - 1];
            WalkIn(net, u, before) && before[0] == walk[0]
            && Linked(net, before[|before| - 1], walk[|walk| - 1])
  {
    hide Linked;
    ShorterWalk(net, walk);
  }

  lemma PortTowards(b: Net, c: Net, m: nat, n: nat) returns (q: nat)
    requires Linked(c, m, n) && SameTopology(b, c)
    ensures IsPort(b, m, q) && b[m].peers[q].0 == n
  {
    q :| IsPort(c, m, q) && c[m].peers[q].0 == n;
  }

  lemma BestIsHeard(a: Net, b: Net, c: Net, bs: Bestss, cs: Bestss, u: set<nat>, r: nat)
    requires TwoStages(a, b, c, bs, cs, u) && BestClock(b, u, r)
    ensures r < |c| && GmIdentity(c, r) == Identity(c, r) && Steps(c, r) == 0
  {
    hide Topology, AllSound, Concluded, Hearkens, Leading, Shut;
    StageAt(b, c, cs, r);
    BestLeads(b, c, u, r, cs[r]);
    LeadingRank(c, r, cs[r]);
  }

  lemma HearsOfBest(
    b: Net, c: Net, u: set<nat>, r: nat, n: nat, bests: seq<Option<Dataset>>, m: nat, q: nat, walk: seq<nat>)
    requires StageOf(b, c, n, bests) && BestClock(b, u, r) && AllSound(b, u) && Shut(b, u) && n != r
    requires WalkIn(c, u, walk) && walk[0] == r && walk[|walk| - 1] == n
    requires IsPort(b, m, q) && b[m].peers[q].0 == n && Transmits(b, m, q)
    requires r < |b| && GmIdentity(b, m) == Identity(b, r) && Steps(b, m) < 255 && Steps(b, m) <= |walk| - 2
    ensures Reaches(c, r, walk)
  {
    hide Topology, BestClock, AllSound, Concluded, Shut, Linked;
    PeerOf(b, m, q);
    var p: nat := b[m].peers[q].1;
    assert b[n].peers[p] == (m, q);
    HeardOn(b, c, n, bests, p);
    BackToFront(b, c);
    SameWalkIn(c, b, u, walk);
    Adopts(b, c, u, r, n, bests, p, walk);
  }

  /** If the clock before n is silent towards it, n is nearer than the walk says. */
  lemma ShorterWay(a: Net, b: Net, c: Net, bs: Bestss, u: set<nat>, r: nat, n: nat, m: nat, q: nat, walk: seq<nat>)
    returns (shorter: seq<nat>)
    requires Stage(a, b, bs) && SameTopology(b, c) && AllSound(a, u) && BestClock(b, u, r)
    requires WalkIn(c, u, walk) && walk[0] == r && walk[|walk| - 1] == n
    requires IsPort(b, m, q) && b[m].peers[q].0 == n && !Transmits(b, m, q)
    requires r < |b| && GmIdentity(b, m) == Identity(b, r) && Steps(b, m) <= |walk| - 2
    ensures WalkIn(c, u, shorter) && shorter[0] == r && shorter[|shorter| - 1] == n && |shorter| < |walk|
  {
    hide Topology, BestClock, Concluded, Sound, Linked;
    StageAt(a, b, bs, m);
    PortCount(a, b, m, bs[m]);
    SilentTowards(a, b, m, bs[m], q);
    SameNames(a, b, r);
    BackToFront(a, b);
    BackToFront(b, c);
    SameBest(b, a, u, r);
    SameWalkIn(c, b, u, walk);
    SameWalkIn(b, a, u, walk);
    shorter := TracedToBest(a, u, r, n, walk);
    SameWalkIn(a, b, u, shorter);
    SameWalkIn(b, c, u, shorter);
  }

  lemma BackToFront(a: Net, b: Net)
    requires SameTopology(a, b)
    ensures SameTopology(b, a)
  {
  }

  lemma PortCount(a: Net, b: Net, n: nat, bests: seq<Option<Dataset>>)
    requires StageOf(a, b, n, bests)
    ensures forall p: nat :: IsPort(a, n, p) <==> p < |bests|
  {
  }

  lemma ReachedNext(a: Net, b: Net, c: Net, bs: Bestss, cs: Bestss, u: set<nat>, r: nat, k: nat)
    requires TwoStages(a, b, c, bs, cs, u) && BestClock(b, u, r) && Reached(b, u, r, k) && k < REACH
    ensures Reached(c, u, r, k + 1)
  {
    hide TwoStages, BestClock, Reaches;
    forall walk | WalkIn(c, u, walk) && walk[0] == r && |walk| <= k + 1 ensures Reaches(c, r, walk) {
      ReachesNext(a, b, c, bs, cs, u, r, k, walk);
    }
  }

  // ---------------------------------------------------------------------
  // Claims that are true
  // ---------------------------------------------------------------------

  /** Every clock of the region that is within reach of a best clock of it announces
      that one, from as far away as it is. */
  ghost predicate Truthful(net: Net, u: set<nat>) {
    Topology(net) && AllSound(net, u) && forall r: nat | BestClock(net, u, r) :: Reached(net, u, r, REACH)
  }

  /** up is a way from the best clock r of n's component that is short enough. */
  ghost predicate WayFrom(net: Net, u: set<nat>, r: nat, n: nat, up: seq<nat>) {
    BestClock(net, u, r) && WalkIn(net, u, up) && up[0] == r && up[|up| - 1] == n && |up| <= REACH
  }

  ghost predicate HasWay(net: Net, u: set<nat>, n: nat) {
    exists r: nat, up: seq<nat> :: WayFrom(net, u, r, n, up)
  }

  /** Every clock is within 255 links of the best clock of its component. */
  ghost predicate WithinReach(net: Net) {
    forall n: nat | n < |net| :: HasWay(net, All(net), n)
  }

  lemma Way(net: Net, u: set<nat>, n: nat) returns (r: nat, up: seq<nat>)
    requires HasWay(net, u, n)
    ensures WayFrom(net, u, r, n, up)
  {
    hide WayFrom;
    r, up :| WayFrom(net, u, r, n, up);
  }

  lemma SameWay(a: Net, b: Net, u: set<nat>, r: nat, n: nat, up: seq<nat>)
    requires SameTopology(a, b) && WayFrom(a, u, r, n, up)
    ensures WayFrom(b, u, r, n, up)
  {
    hide BestClock, Linked;
    SameWalkIn(a, b, u, up);
    SameBest(a, b, u, r);
  }

  lemma StillHasWay(a: Net, b: Net, u: set<nat>, n: nat)
    requires SameTopology(a, b) && HasWay(a, u, n)
    ensures HasWay(b, u, n)
  {
    hide WayFrom;
    var r, up := Way(a, u, n);
    SameWay(a, b, u, r, n, up);
  }

  lemma StaysWithinReach(a: Net, b: Net)
    requires SameTopology(a, b) && WithinReach(a)
    ensures WithinReach(b)
  {
    hide HasWay;
    forall n: nat | n < |b| ensures HasWay(b, All(b), n) {
      StillHasWay(a, b, All(a), n);
    }
  }

  lemma TruthfulClaim(net: Net, u: set<nat>, r: nat, n: nat, up: seq<nat>) returns (path: seq<nat>)
    requires Truthful(net, u) && WayFrom(net, u, r, n, up)
    ensures n < |net| && r < |net| && GmIdentity(net, n) == Identity(net, r) && GmRank(net, n) == Rank(Own(net, r))
    ensures WayFrom(net, u, r, n, path) && |path| == Steps(net, n) + 1
  {
    hide Topology, BestClock, Sound, Linked;
    ReachedBy(net, u, r, REACH, up);
    path := TracedToBest(net, u, r, n, up);
  }

  lemma ClaimsAgreeAt(a: Net, b: Net, u: set<nat>, n: nat)
    requires SameTopology(a, b) && Truthful(a, u) && Truthful(b, u) && HasWay(a, u, n) && n < |a|
    ensures GmIdentity(a, n) == GmIdentity(b, n) && GmRank(a, n) == GmRank(b, n) && Steps(a, n) == Steps(b, n)
  {
    hide Truthful, WayFrom;
    var r, up := Way(a, u, n);
    SameWay(a, b, u, r, n, up);
    BackToFront(a, b);
    var one := TruthfulClaim(a, u, r, n, up);
    var two := TruthfulClaim(b, u, r, n, up);
    SameNames(a, b, r);
    SameWay(a, b, u, r, n, one);
    SameWay(b, a, u, r, n, two);
    NoFarther(b, u, r, n, one);
    NoFarther(a, u, r, n, two);
  }

  lemma NoFarther(net: Net, u: set<nat>, r: nat, n: nat, up: seq<nat>)
    requires Truthful(net, u) && WayFrom(net, u, r, n, up)
    ensures n < |net| && Steps(net, n) <= |up| - 1
  {
    hide Topology, BestClock, Sound, Linked;
    ReachedBy(net, u, r, REACH, up);
  }

  // ---------------------------------------------------------------------
  // Layers
  // ---------------------------------------------------------------------

  /** The clocks of a region that are too far from the best clocks of its components. */
  ghost function Beyond(net: Net, u: set<nat>): (v: set<nat>)
    ensures v <= u
  {
    set n | n in u && !HasWay(net, u, n)
  }

  /** The clocks that are in none of the first k layers. */
  ghost function Remaining(net: Net, k: nat): (u: set<nat>)
    ensures u <= All(net)
  {
    if k == 0 then All(net) else Beyond(net, Remaining(net, k - 1))
  }

  /** Where all clocks within reach announce the best ones, the others do not hear them. */
  lemma BeyondIsShut(net: Net, u: set<nat>)
    requires Truthful(net, u) && Shut(net, u)
    ensures Shut(net, Beyond(net, u))
  {
    hide Truthful, HasWay, Linked;
    var v := Beyond(net, u);
    forall n: nat, m: nat | n in v && m !in v && m < |net| && Linked(net, m, n) ensures Steps(net, m) >= 255 {
      if m in u && Steps(net, m) < 255 {
        NextHasWay(net, u, m, n);
      }
    }
  }

  lemma NextHasWay(net: Net, u: set<nat>, m: nat, n: nat)
    requires Truthful(net, u) && HasWay(net, u, m) && Steps(net, m) < 255 && Linked(net, m, n) && n in u
    ensures HasWay(net, u, n)
  {
    LinkedBack(net, m, n);
    assert n < |net|;
    hide Truthful, BestClock, Linked;
    var r, up := Way(net, u, m);
    var path := TruthfulClaim(net, u, r, m, up);
    ExtendedWalkIn(net, u, path, n);
    assert WayFrom(net, u, r, n, path + [n]);
  }

  lemma {:induction false} SameRemaining(a: Net, b: Net, k: nat)
    requires SameTopology(a, b)
    ensures Remaining(a, k) == Remaining(b, k)
  {
    hide HasWay;
    if k > 0 {
      SameRemaining(a, b, k - 1);
      BackToFront(a, b);
      var u := Remaining(a, k - 1);
      forall n | n in u ensures HasWay(a, u, n) <==> HasWay(b, u, n) {
        if HasWay(a, u, n) {
          StillHasWay(a, b, u, n);
        }
        if HasWay(b, u, n) {
          StillHasWay(b, a, u, n);
        }
      }
    }
  }

  /** Of any clocks one is the best. */
  lemma {:induction false} BestOfRegion(net: Net, u: set<nat>) returns (r: nat)
    requires Topology(net) && u <= All(net) && u != {}
    ensures r in u && forall n | n in u && n != r :: n < |net| && DscmpSets(Own(net, r), Own(net, n)) > 0
    decreases |u|
  {
    hide Topology, DscmpSets, Rank, Memcmp;
    var x :| x in u;
    if u == {x} {
      r := x;
    } else {
      var s := BestOfRegion(net, u - {x});
      DifferentIdentities(net, s, x);
      EitherIsBetter(Own(net, s), Own(net, x));
      r := if DscmpSets(Own(net, s), Own(net, x)) > 0 then s else x;
      forall n | n in u && n != r ensures n < |net| && DscmpSets(Own(net, r), Own(net, n)) > 0 {
        if r == x && n != s {
          DifferentIdentities(net, x, n);
          DifferentIdentities(net, s, n);
          BetterThanBetter(Own(net, x), Own(net, s), Own(net, n));
        }
      }
    }
  }

  lemma EitherIsBetter(a: Dataset, b: Dataset)
    requires a.identity != b.identity
    ensures DscmpSets(a, b) > 0 || DscmpSets(b, a) > 0
  {
    DscmpDifferentIdentity(a, b);
  }

  lemma BetterThanBetter(a: Dataset, b: Dataset, c: Dataset)
    requires a.identity != b.identity && b.identity != c.identity && a.identity != c.identity
    requires DscmpSets(a, b) > 0 && DscmpSets(b, c) > 0
    ensures DscmpSets(a, c) > 0
  {
    hide DscmpSets, Memcmp;
    RanksDecide(a, b);
    RanksDecide(b, c);
    RanksDecide(a, c);
    MemcmpTransitive(Rank(a), Rank(b), Rank(c));
  }

  /** Every layer has a clock, so a network has no more layers than clocks. */
  lemma {:induction false} FewLayers(net: Net, k: nat)
    requires Topology(net) && k <= |net|
    ensures |Remaining(net, k)| <= |net| - k
  {
    hide Topology, DscmpSets;
    if k > 0 {
      FewLayers(net, k - 1);
      var u := Remaining(net, k - 1);
      if u != {} {
        var r := BestOfRegion(net, u);
        BestHasWay(net, u, r);
        Fewer(Beyond(net, u), u, r);
      }
    }
  }

  lemma Fewer(v: set<nat>, u: set<nat>, r: nat)
    requires v <= u && r in u && r !in v
    ensures |v| < |u|
  {
    assert v <= u - {r};
    FewerOrEqual(v, u - {r});
  }

  lemma FewerOrEqual(v: set<nat>, u: set<nat>)
    requires v <= u
    ensures |v| <= |u|
  {
    assert u == v + (u - v);
  }

  lemma BestHasWay(net: Net, u: set<nat>, r: nat)
    requires u <= All(net) && r in u && forall n | n in u && n != r :: n < |net| && DscmpSets(Own(net, r), Own(net, n)) > 0
    ensures HasWay(net, u, r)
  {
    hide DscmpSets, Linked;
    assert WayFrom(net, u, r, r, [r]);
  }

  lemma NoneRemain(net: Net)
    requires Topology(net)
    ensures Remaining(net, |net|) == {}
  {
    hide Topology;
    FewLayers(net, |net|);
  }

  lemma OneLayer(net: Net)
    ensures WithinReach(net) <==> Remaining(net, 1) == {}
  {
    hide HasWay;
    assert Remaining(net, 1) == Beyond(net, All(net));
    if Remaining(net, 1) == {} {
      forall n: nat | n < |net| ensures HasWay(net, All(net), n) {
        assert n !in Beyond(net, All(net));
      }
    }
  }

  // ---------------------------------------------------------------------
  // All layers together
  // ---------------------------------------------------------------------

  /** The claims of the first k layers are true, each in what remains of those before. */
  ghost predicate Layered(net: Net, k: nat) {
    && Topology(net)
    && forall j: nat {:trigger Remaining(net, j)} | j < k :: Truthful(net, Remaining(net, j))
  }

  lemma LayeredAt(net: Net, k: nat, j: nat)
    requires Layered(net, k) && j < k
    ensures Truthful(net, Remaining(net, j))
  {
    hide Topology, Truthful, Remaining;
  }

  lemma {:induction false} InSomeLayer(net: Net, k: nat, n: nat) returns (j: nat)
    requires n < |net| && n !in Remaining(net, k)
    ensures j < k && HasWay(net, Remaining(net, j), n)
  {
    hide HasWay;
    if n !in Remaining(net, k - 1) {
      j := InSomeLayer(net, k - 1, n);
    } else {
      j := k - 1;
    }
  }

  /** Every clock announces the same in both states. */
  ghost predicate Agreed(a: Net, b: Net) {
    && SameTopology(a, b)
    && forall n | 0 <= n < |a| ::
         GmIdentity(a, n) == GmIdentity(b, n) && GmRank(a, n) == GmRank(b, n) && Steps(a, n) == Steps(b, n)
  }

  /** Claims that are true in every layer are unique. */
  lemma ClaimsAgree(a: Net, b: Net, k: nat)
    requires SameTopology(a, b) && Layered(a, k) && Layered(b, k) && Remaining(a, k) == {}
    ensures Agreed(a, b)
  {
    hide Layered, HasWay, Remaining;
    forall n: nat | n < |a|
      ensures GmIdentity(a, n) == GmIdentity(b, n) && GmRank(a, n) == GmRank(b, n) && Steps(a, n) == Steps(b, n)
    {
      var j := InSomeLayer(a, k, n);
      SameRemaining(a, b, j);
      LayeredAt(a, k, j);
      LayeredAt(b, k, j);
      ClaimsAgreeAt(a, b, Remaining(a, j), n);
    }
  }

  lemma LayeredIsSound(net: Net, k: nat)
    requires Layered(net, k) && Remaining(net, k) == {}
    ensures Topology(net) && AllSound(net, All(net))
  {
    hide Topology, Sound, Reached, BestClock;
    if k > 0 {
      assert Remaining(net, 0) == All(net);
    }
  }

  // ---------------------------------------------------------------------
  // Links
  // ---------------------------------------------------------------------

  /** A component has one best clock. */
  lemma OneBest(net: Net, r: nat, n: nat, up: seq<nat>, s: nat, m: nat, down: seq<nat>)
    requires Topology(net) && Linked(net, n, m) && m < |net|
    requires WayFrom(net, All(net), r, n, up) && WayFrom(net, All(net), s, m, down)
    ensures r == s
  {
    hide Topology, BestClock, Linked;
    ExtendedWalkIn(net, All(net), up, m);
    WalkBackIn(net, All(net), down);
    JoinWalksIn(net, All(net), up + [m], Reversed(down));
    var there := up + [m] + Reversed(down)[1..];
    WalkBackIn(net, All(net), there);
    if r != s {
      BestThere(net, All(net), r, there, s);
      BestThere(net, All(net), s, Reversed(there), r);
      DifferentIdentities(net, r, s);
      DscmpDifferentIdentity(Own(net, r), Own(net, s));
    }
  }

  lemma LinkClaims(net: Net, n: nat, m: nat)
    requires Truthful(net, All(net)) && WithinReach(net) && Linked(net, n, m) && n < |net| && m < |net|
    ensures GmIdentity(net, n) == GmIdentity(net, m)
  {
    hide WayFrom, AllSound, Topology;
    var r, up := Way(net, All(net), n);
    var s, down := Way(net, All(net), m);
    OneBest(net, r, n, up, s, m, down);
    var one := TruthfulClaim(net, All(net), r, n, up);
    var two := TruthfulClaim(net, All(net), s, m, down);
  }

  /** A stage that changes no claim. */
  ghost predicate Steady(prev: Net, cur: Net, bests: Bestss) {
    Stage(prev, cur, bests) && Agreed(prev, cur) && AllSound(prev, All(prev)) && AllSound(cur, All(cur))
  }

  /** In a steady stage a port transmits only if it is preferred or hears nothing,
      and if it is preferred it does. */
  lemma SteadyPort(prev: Net, cur: Net, bests: Bestss, n: nat, p: nat)
    requires Steady(prev, cur, bests) && IsPort(cur, n, p)
    ensures var (m, q) := cur[n].peers[p];
            && m < |cur| && IsPort(prev, n, p) && IsPort(prev, m, q) && IsPort(cur, m, q)
            && cur[m].peers[q] == (n, p) && cur[m] .peers == prev[m].peers
            && (Prefers(cur, n, p, m, q) ==> Transmits(cur, n, p))
            && (Transmits(cur, n, p) ==>
                  Prefers(cur, n, p, m, q) || !(Transmits(prev, m, q) && Steps(cur, m) < 255))
            && (!(Transmits(prev, m, q) && Steps(cur, m) < 255) ==> Transmits(cur, n, p))
  {
    hide Topology, Concluded, Hearkens, Sound, BestClock, GmRank, Memcmp;
    StageAt(prev, cur, bests, n);
    PortCount(prev, cur, n, bests[n]);
    StageTopology(prev, cur, bests);
    PeerOf(cur, n, p);
    var m, q := cur[n].peers[p].0, cur[n].peers[p].1;
    SameNames(prev, cur, n);
    SameNames(prev, cur, m);
    HeardOn(prev, cur, n, bests[n], p);
    if !Transmits(cur, n, p) {
      SilentTowards(prev, cur, n, bests[n], p);
      PidCmpZero(Pid(cur, n, p), Pid(cur, m, q));
    } else if Transmits(prev, m, q) && Steps(cur, m) < 255 {
      if GmIdentity(prev, m) == GmIdentity(cur, n) {
        OnlyRootIsAtZero(cur, n, m);
        LeadingHasNoSteps(cur, n, bests[n]);
        TransmitsAgainst(prev, cur, n, bests[n], p);
      } else {
        OutranksHeard(prev, cur, n, bests[n], p);
      }
    }
  }

  lemma LeadingHasNoSteps(cur: Net, n: nat, bests: seq<Option<Dataset>>)
    requires n < |cur| && Concluded(cur, n, bests)
    ensures Leading(Own(cur, n), bests) ==> Steps(cur, n) == 0 && GmIdentity(cur, n) == Identity(cur, n)
  {
  }

  /** A neighbour of a clock that announces itself is a step away at least. */
  lemma OnlyRootIsAtZero(net: Net, n: nat, m: nat)
    requires Topology(net) && AllSound(net, All(net)) && n < |net| && m < |net| && n != m
    requires GmIdentity(net, n) == GmIdentity(net, m)
    ensures GmIdentity(net, n) == Identity(net, n) ==> Steps(net, m) > 0
  {
    hide Topology, Linked;
    assert Sound(net, All(net), m);
    var path :| Origin(net, All(net), m, path);
    if GmIdentity(net, n) == Identity(net, n) && path[0] != n {
      DifferentIdentities(net, path[0], n);
    }
  }

  /** Who transmits on a link follows from what its ends announce. */
  ghost predicate Ruled(net: Net) {
    && Topology(net)
    && forall n: nat, p: nat | IsPort(net, n, p) ::
         var (m, q) := net[n].peers[p];
         Transmits(net, n, p) <==> Prefers(net, n, p, m, q) || Steps(net, m) >= 255
  }

  lemma OneIsPreferred(net: Net, n: nat, p: nat)
    requires Topology(net) && IsPort(net, n, p) && AllSound(net, All(net))
    ensures var (m, q) := net[n].peers[p]; m < |net| && (Prefers(net, n, p, m, q) <==> !Prefers(net, m, q, n, p))
  {
    hide Topology, Sound;
    PeerOf(net, n, p);
    var m, q := net[n].peers[p].0, net[n].peers[p].1;
    DifferentIdentities(net, n, m);
    PidDiffer(net, n, p, m, q);
    PidCmpZero(Pid(net, n, p), Pid(net, m, q));
    hide Memcmp;
    MemcmpAntisymmetric(GmRank(net, n), GmRank(net, m));
    if GmIdentity(net, n) != GmIdentity(net, m) {
      DifferentRanks(net, n, m);
    }
  }

  lemma PidDiffer(net: Net, n: nat, p: nat, m: nat, q: nat)
    requires Topology(net) && n < |net| && m < |net| && Identity(net, n) != Identity(net, m)
    ensures Pid(net, n, p) != Pid(net, m, q)
  {
    TopologyAt(net, n);
    TopologyAt(net, m);
    hide Topology;
  }

  lemma DifferentRanks(net: Net, n: nat, m: nat)
    requires n < |net| && m < |net| && GmIdentity(net, n) != GmIdentity(net, m)
    ensures GmRank(net, n) != GmRank(net, m)
  {
    assert GmRank(net, n)[5..] == GmIdentity(net, n) && GmRank(net, m)[5..] == GmIdentity(net, m);
  }

  lemma SamePreference(a: Net, b: Net, n: nat, p: nat, m: nat, q: nat)
    requires Agreed(a, b) && n < |a| && m < |a|
    ensures Prefers(a, n, p, m, q) == Prefers(b, n, p, m, q)
  {
    SameNames(a, b, n);
    SameNames(a, b, m);
  }

  lemma RulesPort(a: Net, b: Net, c: Net, bs: Bestss, cs: Bestss, n: nat, p: nat)
    requires Steady(a, b, bs) && Steady(b, c, cs) && IsPort(c, n, p)
    ensures var (m, q) := c[n].peers[p];
            m < |c| && (Transmits(c, n, p) <==> Prefers(c, n, p, m, q) || Steps(c, m) >= 255)
  {
    hide Topology, Stage, AllSound, Prefers;
    var m, q := c[n].peers[p].0, c[n].peers[p].1;
    StageTopology(b, c, cs);
    SteadyPort(b, c, cs, n, p);
    SteadyPort(a, b, bs, m, q);
    SamePreference(b, c, m, q, n, p);
    OneIsPreferred(c, n, p);
  }

  /** After two steady stages the links are ruled by the claims. */
  lemma Rules(a: Net, b: Net, c: Net, bs: Bestss, cs: Bestss)
    requires Steady(a, b, bs) && Steady(b, c, cs)
    ensures Ruled(c)
  {
    hide Topology, Stage, Prefers, AllSound, Agreed;
    StageTopology(b, c, cs);
    forall n: nat, p: nat | IsPort(c, n, p)
      ensures var (m, q) := c[n].peers[p];
              m < |c| && (Transmits(c, n, p) <==> Prefers(c, n, p, m, q) || Steps(c, m) >= 255)
    {
      RulesPort(a, b, c, bs, cs, n, p);
    }
  }

  lemma RuledAlike(a: Net, b: Net, n: nat, p: nat)
    requires Ruled(a) && Ruled(b) && Agreed(a, b) && IsPort(a, n, p)
    ensures IsPort(b, n, p) && (Transmits(a, n, p) <==> Transmits(b, n, p))
  {
    hide Topology, Prefers;
    var m, q := a[n].peers[p].0, a[n].peers[p].1;
    PeerOf(a, n, p);
    SamePreference(a, b, n, p, m, q);
    assert IsPort(b, n, p);
  }

  // ---------------------------------------------------------------------
  // Runs of stages
  // ---------------------------------------------------------------------

  lemma {:induction false} SameThroughout(ds: seq<Net>, bestss: seq<Bestss>, i: nat)
    requires Stages(ds, bestss) && i < |ds|
    ensures SameTopology(ds[0], ds[i])
  {
    hide Stages, Topology, Concluded, Hearkens;
    if i > 0 {
      SameThroughout(ds, bestss, i - 1);
      StagesAt(ds, bestss, i - 1);
    }
  }

  /** How far away the best clocks are heard after a number of stages. */
  function Range(i: nat): (k: nat)
    ensures k <= REACH
  {
    if i <= REACH + 1 then 0 else if i - REACH - 1 < REACH then i - REACH - 1 else REACH
  }

  /** From stage 257 on the best clocks are heard one link further with every stage. */
  lemma {:induction false} DistancesGrow(ds: seq<Net>, bestss: seq<Bestss>, u: set<nat>, r: nat, i: nat)
    requires Stages(ds, bestss) && AlwaysShut(ds, u) && REACH < i < |ds| && BestClock(ds[i], u, r)
    ensures Reached(ds[i], u, r, Range(i))
  {
    hide Stages, BestClock, Reached, AlwaysShut;
    if i == REACH + 1 {
      NothingReached(ds[i], u, r);
    } else {
      BestBefore(ds, bestss, u, r, i - 1);
      DistancesGrow(ds, bestss, u, r, i - 1);
      DistanceGrows(ds, bestss, u, r, i - 1);
    }
  }

  lemma BestBefore(ds: seq<Net>, bestss: seq<Bestss>, u: set<nat>, r: nat, i: nat)
    requires Stages(ds, bestss) && i + 1 < |ds| && BestClock(ds[i + 1], u, r)
    ensures BestClock(ds[i], u, r)
  {
    hide Stages, Stage, BestClock;
    StagesAt(ds, bestss, i);
    StageTopology(ds[i], ds[i + 1], bestss[i]);
    BackToFront(ds[i], ds[i + 1]);
    SameBest(ds[i + 1], ds[i], u, r);
  }

  lemma DistanceGrows(ds: seq<Net>, bestss: seq<Bestss>, u: set<nat>, r: nat, i: nat)
    requires Stages(ds, bestss) && AlwaysShut(ds, u) && REACH < i && i + 1 < |ds|
    requires BestClock(ds[i], u, r) && Reached(ds[i], u, r, Range(i))
    ensures Reached(ds[i + 1], u, r, Range(i + 1))
  {
    hide Stages, BestClock, Reached, TwoStages, AlwaysShut;
    TwoSound(ds, bestss, u, i - 1);
    ReachedOneMore(ds[i - 1], ds[i], ds[i + 1], bestss[i - 1], bestss[i], u, r, Range(i));
  }

  lemma TwoSound(ds: seq<Net>, bestss: seq<Bestss>, u: set<nat>, i: nat)
    requires Stages(ds, bestss) && AlwaysShut(ds, u) && REACH <= i && i + 2 < |ds|
    ensures i + 1 < |bestss| && TwoStages(ds[i], ds[i + 1], ds[i + 2], bestss[i], bestss[i + 1], u)
  {
    hide Stages, Stage, AllSound, AlwaysShut, Shut;
    StagesAt(ds, bestss, i);
    StagesAt(ds, bestss, i + 1);
    PhantomsDie(ds, bestss, u, i);
    PhantomsDie(ds, bestss, u, i + 1);
    ShutAt(ds, u, i + 1);
  }

  lemma ReachedOneMore(a: Net, b: Net, c: Net, bs: Bestss, cs: Bestss, u: set<nat>, r: nat, k: nat)
    requires TwoStages(a, b, c, bs, cs, u) && BestClock(b, u, r) && Reached(b, u, r, k) && k <= REACH
    ensures Reached(c, u, r, if k < REACH then k + 1 else REACH)
  {
    hide TwoStages, BestClock, Reached;
    var l := if k < REACH then k else REACH - 1;
    FewerReached(b, u, r, l, k);
    ReachedNext(a, b, c, bs, cs, u, r, l);
  }

  lemma StageTopology(prev: Net, cur: Net, bests: Bestss)
    requires Stage(prev, cur, bests)
    ensures Topology(prev) && Topology(cur) && SameTopology(prev, cur)
  {
    hide Topology;
  }

  lemma NothingReached(net: Net, u: set<nat>, r: nat)
    ensures Reached(net, u, r, 0)
  {
  }

  lemma FewerReached(net: Net, u: set<nat>, r: nat, k: nat, l: nat)
    requires Reached(net, u, r, l) && k <= l
    ensures Reached(net, u, r, k)
  {
    hide Reaches;
  }

  /** After 513 stages all claims in a region that hears of no other are those of its
      best clocks, where these are within reach. */
  lemma ClaimsSettle(ds: seq<Net>, bestss: seq<Bestss>, u: set<nat>, i: nat)
    requires Stages(ds, bestss) && AlwaysShut(ds, u) && 2 * REACH < i < |ds|
    ensures Truthful(ds[i], u)
  {
    hide Stages, Stage, BestClock, Reached, AllSound, Topology, AlwaysShut;
    StagesAt(ds, bestss, i - 1);
    StageTopology(ds[i - 1], ds[i], bestss[i - 1]);
    PhantomsDie(ds, bestss, u, i);
    forall r: nat | BestClock(ds[i], u, r) ensures Reached(ds[i], u, r, REACH) {
      DistancesGrow(ds, bestss, u, r, i);
    }
  }

  /** The number of stages in which one more layer settles. */
  const LAYER := 2 * REACH + 1

  lemma StagesFrom(ds: seq<Net>, bestss: seq<Bestss>, i: nat)
    requires Stages(ds, bestss) && i < |ds|
    ensures i <= |bestss| && Stages(ds[i..], bestss[i..])
  {
    hide Stage;
  }

  /** The claims of one layer after the other become true, and stay so. */
  lemma {:induction false} LayersSettle(ds: seq<Net>, bestss: seq<Bestss>, k: nat, i: nat)
    requires Stages(ds, bestss) && LAYER * k <= i < |ds| && |ds| > 1
    ensures Shut(ds[i], Remaining(ds[i], k))
    ensures k > 0 ==> Truthful(ds[i], Remaining(ds[i], k - 1))
    decreases k, 0
  {
    hide Stages, Shut, Truthful, Remaining, AlwaysShut;
    if k == 0 {
      assert Remaining(ds[i], 0) == All(ds[i]) by {
        NoLayer(ds[i]);
      }
      AllIsShut(ds[i]);
    } else {
      var start := LAYER * (k - 1);
      var u := Remaining(ds[i], k - 1);
      ShutFrom(ds, bestss, k - 1, i);
      StagesFrom(ds, bestss, start);
      ClaimsSettle(ds[start..], bestss[start..], u, i - start);
      LayersSettle(ds, bestss, k - 1, i);
      BeyondIsShut(ds[i], u);
      OneMoreLayer(ds[i], k);
    }
  }

  lemma NoLayer(net: Net)
    ensures Remaining(net, 0) == All(net)
  {
  }

  lemma OneMoreLayer(net: Net, k: nat)
    requires k > 0
    ensures Remaining(net, k) == Beyond(net, Remaining(net, k - 1))
  {
  }

  lemma {:induction false} ShutFrom(ds: seq<Net>, bestss: seq<Bestss>, k: nat, i: nat)
    requires Stages(ds, bestss) && LAYER * k <= i < |ds| && |ds| > 1
    ensures AlwaysShut(ds[LAYER * k..], Remaining(ds[i], k))
    decreases k, 1
  {
    hide Stages, Shut, Truthful, Remaining;
    var later := ds[LAYER * k..];
    forall j | 0 <= j < |later| ensures Shut(later[j], Remaining(ds[i], k)) {
      LayersSettle(ds, bestss, k, LAYER * k + j);
      SameThroughout(ds, bestss, LAYER * k + j);
      SameThroughout(ds, bestss, i);
      BackToFront(ds[0], ds[i]);
      SameRemaining(ds[0], ds[i], k);
      SameRemaining(ds[0], ds[LAYER * k + j], k);
    }
  }

  lemma AreLayered(ds: seq<Net>, bestss: seq<Bestss>, k: nat, i: nat)
    requires Stages(ds, bestss) && LAYER * k <= i < |ds| && |ds| > 1
    ensures Layered(ds[i], k)
  {
    hide Stages, Shut, Truthful, Remaining, Topology;
    StagesTopology(ds, bestss, i);
    forall j: nat | j < k ensures Truthful(ds[i], Remaining(ds[i], j)) {
      LayersSettle(ds, bestss, j + 1, i);
    }
  }

  lemma StagesTopology(ds: seq<Net>, bestss: seq<Bestss>, i: nat)
    requires Stages(ds, bestss) && i < |ds| && |ds| > 1
    ensures Topology(ds[i])
  {
    hide Stages, Stage, Topology;
    var j := if i == 0 then 0 else i - 1;
    StagesAt(ds, bestss, j);
    StageTopology(ds[j], ds[j + 1], bestss[j]);
  }

  lemma StagesAgree(ds: seq<Net>, bestss: seq<Bestss>, k: nat, i: nat)
    requires Stages(ds, bestss) && Remaining(ds[0], k) == {} && LAYER * k <= i && i + 1 < |ds|
    ensures i < |bestss| && Steady(ds[i], ds[i + 1], bestss[i]) && Agreed(ds[i], ds[i + 1])
  {
    hide Stages, Stage, Layered, Agreed, Remaining;
    StagesAt(ds, bestss, i);
    StageTopology(ds[i], ds[i + 1], bestss[i]);
    AreLayered(ds, bestss, k, i);
    AreLayered(ds, bestss, k, i + 1);
    SameThroughout(ds, bestss, i);
    SameThroughout(ds, bestss, i + 1);
    SameRemaining(ds[0], ds[i], k);
    SameRemaining(ds[0], ds[i + 1], k);
    ClaimsAgree(ds[i], ds[i + 1], k);
    LayeredIsSound(ds[i], k);
    LayeredIsSound(ds[i + 1], k);
  }

  /** After two more the links are ruled by them. */
  lemma StagesSettle(ds: seq<Net>, bestss: seq<Bestss>, k: nat, i: nat)
    requires Stages(ds, bestss) && Remaining(ds[0], k) == {} && LAYER * k + 2 <= i < |ds|
    ensures Ruled(ds[i])
  {
    hide Stages, Steady, Ruled, Remaining;
    StagesAgree(ds, bestss, k, i - 2);
    StagesAgree(ds, bestss, k, i - 1);
    Rules(ds[i - 2], ds[i - 1], ds[i], bestss[i - 2], bestss[i - 1]);
  }

  // ---------------------------------------------------------------------
  // Networks that say the same
  // ---------------------------------------------------------------------

  ghost predicate AllAlike(bs: seq<Option<Dataset>>, cs: seq<Option<Dataset>>) {
    |bs| == |cs| && forall p | 0 <= p < |bs| :: Alike(bs[p], cs[p])
  }

  lemma SameFields(a: Net, b: Net, m: nat)
    requires m < |a| && m < |b| && GmRank(a, m) == GmRank(b, m) && GmIdentity(a, m) == GmIdentity(b, m)
    ensures var x, y := a[m].clock.dad, b[m].clock.dad;
            && x.grandmasterPriority1 == y.grandmasterPriority1 && x.grandmasterClockQuality == y.grandmasterClockQuality
            && x.grandmasterPriority2 == y.grandmasterPriority2
  {
    var x, y := GmRank(a, m), GmRank(b, m);
    assert x[0] == y[0] && x[1] == y[1] && x[2] == y[2] && x[3] == y[3] && x[4] == y[4];
  }

  /** Networks that agree in claims and transmitters say the same on every link. */
  lemma HearsAlike(x: Net, y: Net, n: nat, p: nat, b: Option<Dataset>, c: Option<Dataset>)
    requires Agreed(x, y) && Ruled(x) && Ruled(y) && IsPort(x, n, p) && IsPort(y, n, p)
    requires HearsPeer(x, n, p, b) && HearsPeer(y, n, p, c)
    ensures Alike(b, c)
  {
    hide Topology, Ruled, GmRank;
    RuledTopology(x);
    PeerOf(x, n, p);
    var m, q := x[n].peers[p].0, x[n].peers[p].1;
    RuledAlike(x, y, m, q);
    SameNames(x, y, n);
    SameNames(x, y, m);
    SameFields(x, y, m);
  }

  lemma RuledTopology(net: Net)
    requires Ruled(net)
    ensures Topology(net)
  {
    hide Topology;
  }

  lemma HearkenAlike(x: Net, y: Net, n: nat, bs: seq<Option<Dataset>>, cs: seq<Option<Dataset>>)
    requires Agreed(x, y) && Ruled(x) && Ruled(y) && n < |x|
    requires Hearkens(x, n, bs) && Hearkens(y, n, cs)
    ensures AllAlike(bs, cs)
  {
    hide Topology, Ruled, HearsPeer, Alike;
    RuledTopology(x);
    RuledTopology(y);
    forall p: nat | p < |bs| ensures Alike(bs[p], cs[p]) {
      HearsAlike(x, y, n, p, bs[p], cs[p]);
    }
  }

  lemma LeadingAlike(own: Dataset, bs: seq<Option<Dataset>>, cs: seq<Option<Dataset>>)
    requires AllAlike(bs, cs)
    ensures ClockBest(Dscmp(IEEE1588), bs) == ClockBest(Dscmp(IEEE1588), cs)
    ensures Leading(own, bs) <==> Leading(own, cs)
  {
    SameChoice(bs, cs);
    var b := ClockBest(Dscmp(IEEE1588), bs);
    if b.Some? {
      assert Alike(bs[b.value], cs[b.value]);
    }
  }
}
