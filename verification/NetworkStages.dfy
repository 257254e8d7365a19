/** How what clocks announce changes from one round of Announces to the next. */
module NetworkStages {
  import opened Octets
  import opened DataSets
  import opened Bmc
  import opened Fsm
  import opened PortBmc
  import opened PortTheory
  import opened ClockBmc
  import opened ClockTheory
  import opened Network
  import opened NetworkTheory

  /** Two states of one network. */
  ghost predicate SameTopology(a: Net, b: Net) {
    |a| == |b| && forall n | 0 <= n < |a| :: a[n].cfg == b[n].cfg && a[n].peers == b[n].peers
  }

  lemma SameNames(a: Net, b: Net, n: nat)
    requires SameTopology(a, b) && n < |a|
    ensures Identity(a, n) == Identity(b, n) && Own(a, n) == Own(b, n)
    ensures forall p: nat :: Pid(a, n, p) == Pid(b, n, p) && (IsPort(a, n, p) <==> IsPort(b, n, p))
  {
  }

  lemma SameWalk(a: Net, b: Net, path: seq<nat>)
    requires SameTopology(a, b) && Walk(a, path)
    ensures Walk(b, path)
  {
    forall i | 0 <= i < |path| - 1 ensures Linked(b, path[i], path[i + 1]) {
      assert Linked(a, path[i], path[i + 1]);
      var p: nat :| IsPort(a, path[i], p) && a[path[i]].peers[p].0 == path[i + 1];
      assert IsPort(b, path[i], p) && b[path[i]].peers[p].0 == path[i + 1];
    }
  }

  function Reversed(path: seq<nat>): (r: seq<nat>)
    ensures |r| == |path| && forall i | 0 <= i < |path| :: r[i] == path[|path| - 1 - i]
  {
    seq(|path|, i requires 0 <= i < |path| => path[|path| - 1 - i])
  }

  lemma LinkedBack(net: Net, n: nat, m: nat)
    requires Topology(net) && Linked(net, n, m)
    ensures Linked(net, m, n)
  {
    var p: nat :| IsPort(net, n, p) && net[n].peers[p].0 == m;
    var q: nat := net[n].peers[p].1;
    assert IsPort(net, m, q) && net[m].peers[q] == (n, p);
  }

  lemma WalkBack(net: Net, path: seq<nat>)
    requires Topology(net) && Walk(net, path)
    ensures Walk(net, Reversed(path))
  {
    var r := Reversed(path);
    forall i | 0 <= i < |r| - 1 ensures Linked(net, r[i], r[i + 1]) {
      var j := |path| - 2 - i;
      assert Linked(net, path[j], path[j + 1]);
      LinkedBack(net, path[j], path[j + 1]);
    }
  }

  lemma JoinWalks(net: Net, one: seq<nat>, two: seq<nat>)
    requires Walk(net, one) && Walk(net, two) && one[|one| - 1] == two[0]
    ensures Walk(net, one + two[1..])
    ensures (one + two[1..])[0] == one[0]
    ensures var w := one + two[1..]; w[|w| - 1] == two[|two| - 1]
  {
    var w := one + two[1..];
    forall i | 0 <= i < |w| - 1 ensures Linked(net, w[i], w[i + 1]) {
      if i < |one| - 1 {
        assert w[i] == one[i] && w[i + 1] == one[i + 1];
      } else {
        var j := i - (|one| - 1);
        assert w[i] == two[j] && w[i + 1] == two[j + 1];
      }
    }
  }

  lemma DifferentIdentities(net: Net, n: nat, m: nat)
    requires Topology(net) && n < |net| && m < |net| && n != m
    ensures Identity(net, n) != Identity(net, m)
  {
    if n < m {
      assert Identity(net, n) != Identity(net, m);
    } else {
      assert Identity(net, m) != Identity(net, n);
    }
  }

  /** Of two data sets of one grandmaster the better one is not farther away. */
  lemma NotFarther(best: Dataset, heard: Dataset)
    requires best.identity == heard.identity && best.sender != best.receiver && DscmpSets(best, heard) >= 0
    ensures best.stepsRemoved <= heard.stepsRemoved
  {
    MemcmpAntisymmetric(best.identity, heard.identity);
    PidCmpZero(best.receiver, best.sender);
  }

  lemma LosesTheTie(d: Dataset, r: Dataset)
    requires DscmpSets(d, r) == A_BETTER_TOPO
    ensures d.stepsRemoved == r.stepsRemoved || (d.stepsRemoved + 1 == r.stepsRemoved && PidCmp(r.sender, r.receiver) < 0)
  {
    MemcmpAntisymmetric(d.identity, r.identity);
    PidCmpZero(r.receiver, r.sender);
  }

  /** Data sets that the comparison cannot tell apart. */
  predicate Alike(d: Option<Dataset>, e: Option<Dataset>) {
    match (d, e)
    case (None, None) => true
    case (Some(x), Some(y)) => ContentOf(x) == ContentOf(y) && x.receiver == y.receiver
    case _ => false
  }

  lemma AlikeCompare(a: Dataset, b: Dataset, x: Dataset, y: Dataset)
    requires Alike(Some(a), Some(x)) && Alike(Some(b), Some(y))
    ensures DscmpSets(a, b) == DscmpSets(x, y)
  {
  }

  lemma {:induction false} SameChoice(ds: seq<Option<Dataset>>, es: seq<Option<Dataset>>)
    requires |ds| == |es| && forall i | 0 <= i < |ds| :: Alike(ds[i], es[i])
    ensures ClockBest(Dscmp(IEEE1588), ds) == ClockBest(Dscmp(IEEE1588), es)
  {
    hide DscmpSets;
    if ds != [] {
      var n := |ds| - 1;
      SameChoice(ds[..n], es[..n]);
      var b := ClockBest(Dscmp(IEEE1588), ds[..n]);
      assert Alike(ds[n], es[n]);
      if b.Some? {
        assert Alike(ds[b.value], es[b.value]);
        if ds[n].Some? {
          AlikeCompare(ds[n].value, ds[b.value].value, es[n].value, es[b.value].value);
        }
      }
    }
  }

  // ---------------------------------------------------------------------
  // One stage
  // ---------------------------------------------------------------------

  /** The best data sets of clock n's ports are what the clocks of prev announce. */
  ghost predicate Hearkens(prev: Net, n: nat, bests: seq<Option<Dataset>>)
    requires Topology(prev) && n < |prev|
  {
    |bests| == |prev[n].peers| && forall p: nat | p < |bests| :: HearsPeer(prev, n, p, bests[p])
  }

  ghost predicate HearsPeer(prev: Net, n: nat, p: nat, best: Option<Dataset>)
    requires Topology(prev) && IsPort(prev, n, p)
  {
    var (m, q) := prev[n].peers[p];
    && (best.Some? <==> Transmits(prev, m, q) && Steps(prev, m) < 255)
    && (best.Some? ==> Announced(prev, best.value, m, q) && best.value.receiver == Pid(prev, n, p))
  }

  /** In cur every clock has concluded from what the clocks announced in prev. */
  ghost predicate Stage(prev: Net, cur: Net, bests: seq<seq<Option<Dataset>>>) {
    && Topology(prev) && Topology(cur) && SameTopology(prev, cur) && |bests| == |cur|
    && forall n | 0 <= n < |cur| :: Hearkens(prev, n, bests[n]) && Concluded(cur, n, bests[n])
  }

  function AllBests(net: Net, now: int): (bs: seq<seq<Option<Dataset>>>)
    requires Topology(net)
    ensures |bs| == |net|
  {
    seq(|net|, n requires 0 <= n < |net| => Bests(net, n, now))
  }

  /** Clock n in one stage. */
  ghost predicate StageOf(prev: Net, cur: Net, n: nat, bests: seq<Option<Dataset>>) {
    && Topology(prev) && Topology(cur) && SameTopology(prev, cur) && n < |cur|
    && Hearkens(prev, n, bests) && Concluded(cur, n, bests)
  }

  lemma StageAt(prev: Net, cur: Net, bests: seq<seq<Option<Dataset>>>, n: nat)
    requires Stage(prev, cur, bests) && n < |cur|
    ensures n < |bests| && StageOf(prev, cur, n, bests[n])
  {
    hide Topology, Hearkens, Concluded;
  }

  lemma PeerOf(net: Net, n: nat, p: nat)
    requires Topology(net) && IsPort(net, n, p)
    ensures var (m, q) := net[n].peers[p];
            m != n && IsPort(net, m, q) && net[m].peers[q] == (n, p) && m < |net| && Linked(net, n, m) && Linked(net, m, n)
  {
    var (m, q) := net[n].peers[p];
    assert IsPort(net, m, q) && net[m].peers[q] == (n, p);
  }

  /** What a clock hears on one port. */
  lemma HeardOn(prev: Net, cur: Net, n: nat, bests: seq<Option<Dataset>>, p: nat)
    requires StageOf(prev, cur, n, bests) && p < |bests|
    ensures IsPort(prev, n, p) && IsPort(cur, n, p) && HearsPeer(prev, n, p, bests[p])
    ensures bests[p].Some? ==>
              var m, d := prev[n].peers[p].0, bests[p].value;
              && m < |prev| && Rank(d) == GmRank(prev, m) && d.identity == GmIdentity(prev, m)
              && d.stepsRemoved == Steps(prev, m) && d.sender != d.receiver
  {
    hide Concluded;
    PeerOf(prev, n, p);
    if bests[p].Some? {
      var m, q := prev[n].peers[p].0, prev[n].peers[p].1;
      AnnouncedRank(prev, bests[p].value, m, q);
      DifferentIdentities(prev, n, m);
    }
  }

  /** A clock that is not a root follows a neighbour that announced its grandmaster
      one step nearer. */
  lemma Followed(prev: Net, cur: Net, n: nat, bests: seq<Option<Dataset>>) returns (m: nat)
    requires StageOf(prev, cur, n, bests) && !Leading(Own(cur, n), bests)
    ensures m < |prev| && Linked(prev, m, n) && Steps(prev, m) < 255 && Steps(cur, n) == Steps(prev, m) + 1
    ensures GmRank(cur, n) == GmRank(prev, m) && GmIdentity(cur, n) == GmIdentity(prev, m)
  {
    var b := ClockBest(Dscmp(IEEE1588), bests).value;
    HeardOn(prev, cur, n, bests, b);
    PeerOf(prev, n, b);
    m := prev[n].peers[b].0;
    FollowedRank(cur, n, bests);
  }

  lemma FollowedRank(cur: Net, n: nat, bests: seq<Option<Dataset>>)
    requires n < |cur| && Concluded(cur, n, bests) && !Leading(Own(cur, n), bests)
    ensures var d := bests[ClockBest(Dscmp(IEEE1588), bests).value].value;
            GmRank(cur, n) == Rank(d) && GmIdentity(cur, n) == d.identity && Steps(cur, n) == 1 + d.stepsRemoved
  {
  }

  lemma LeadingRank(cur: Net, n: nat, bests: seq<Option<Dataset>>)
    requires n < |cur| && Concluded(cur, n, bests) && Leading(Own(cur, n), bests)
    ensures GmRank(cur, n) == Rank(Own(cur, n)) && GmIdentity(cur, n) == Identity(cur, n) && Steps(cur, n) == 0
  {
  }

  // ---------------------------------------------------------------------
  // Regions
  // ---------------------------------------------------------------------

  /** A walk among the clocks of a region. */
  ghost predicate WalkIn(net: Net, u: set<nat>, path: seq<nat>) {
    Walk(net, path) && forall i | 0 <= i < |path| :: path[i] in u
  }

  /** The clocks of a region hear nothing from outside. */
  ghost predicate Shut(net: Net, u: set<nat>) {
    forall n: nat, m: nat {:trigger Linked(net, m, n)} | n in u && m !in u && m < |net| && Linked(net, m, n) :: Steps(net, m) >= 255
  }

  function Below(k: nat): (u: set<nat>)
    ensures forall n: nat :: n in u <==> n < k
    ensures |u| == k
  {
    if k == 0 then {} else Below(k - 1) + {k - 1}
  }

  function All(net: Net): (u: set<nat>)
    ensures forall n: nat :: n in u <==> n < |net|
    ensures |u| == |net|
  {
    Below(|net|)
  }

  lemma AllIsShut(net: Net)
    ensures Shut(net, All(net))
  {
  }

  lemma IsShut(net: Net, u: set<nat>, n: nat, m: nat)
    requires Shut(net, u) && n in u && m < |net| && Linked(net, m, n) && Steps(net, m) < 255
    ensures m in u
  {
    hide Linked;
  }

  lemma SameWalkIn(a: Net, b: Net, u: set<nat>, path: seq<nat>)
    requires SameTopology(a, b) && WalkIn(a, u, path)
    ensures WalkIn(b, u, path)
  {
    hide Walk;
    SameWalk(a, b, path);
  }

  lemma WalkBackIn(net: Net, u: set<nat>, path: seq<nat>)
    requires Topology(net) && WalkIn(net, u, path)
    ensures WalkIn(net, u, Reversed(path))
  {
    hide Topology, Linked;
    WalkBack(net, path);
  }

  lemma JoinWalksIn(net: Net, u: set<nat>, one: seq<nat>, two: seq<nat>)
    requires WalkIn(net, u, one) && WalkIn(net, u, two) && one[|one| - 1] == two[0]
    ensures var w := one + two[1..];
            WalkIn(net, u, w) && w[0] == one[0] && w[|w| - 1] == two[|two| - 1]
  {
    hide Linked;
    JoinWalks(net, one, two);
  }

  lemma ExtendedWalk(net: Net, path: seq<nat>, n: nat)
    requires Walk(net, path) && n < |net| && Linked(net, path[|path| - 1], n)
    ensures Walk(net, path + [n])
  {
    var w := path + [n];
    forall i | 0 <= i < |w| - 1 ensures Linked(net, w[i], w[i + 1]) {
      if i < |path| - 1 {
        assert w[i] == path[i] && w[i + 1] == path[i + 1];
      }
    }
  }

  lemma ExtendedWalkIn(net: Net, u: set<nat>, path: seq<nat>, n: nat)
    requires WalkIn(net, u, path) && n < |net| && n in u && Linked(net, path[|path| - 1], n)
    ensures WalkIn(net, u, path + [n])
  {
    hide Linked;
    ExtendedWalk(net, path, n);
  }

  lemma WalkOfLink(net: Net, u: set<nat>, n: nat, m: nat)
    requires n < |net| && m < |net| && n in u && m in u && Linked(net, n, m)
    ensures WalkIn(net, u, [n, m]) && WalkIn(net, u, [n])
  {
  }

  // ---------------------------------------------------------------------
  // Claims that can be traced to their grandmaster
  // ---------------------------------------------------------------------

  /** What clock n announces came from the clock at the beginning of the walk,
      which is as long as the steps say and stays in the region. */
  ghost predicate Origin(net: Net, u: set<nat>, n: nat, path: seq<nat>) {
    && WalkIn(net, u, path) && path[|path| - 1] == n && |path| == Steps(net, n) + 1
    && GmIdentity(net, n) == Identity(net, path[0]) && GmRank(net, n) == Rank(Own(net, path[0]))
  }

  ghost predicate Sound(net: Net, u: set<nat>, n: nat) {
    exists path :: Origin(net, u, n, path)
  }

  /** Claims in the region that cannot be traced are k steps old at least. */
  ghost predicate SoundBelow(net: Net, u: set<nat>, k: nat) {
    forall n: nat {:trigger Sound(net, u, n)} | n < |net| && n in u :: Sound(net, u, n) || Steps(net, n) >= k
  }

  ghost predicate AllSound(net: Net, u: set<nat>) {
    forall n: nat {:trigger Sound(net, u, n)} | n < |net| && n in u :: Sound(net, u, n)
  }

  lemma ExtendedOrigin(prev: Net, cur: Net, u: set<nat>, n: nat, m: nat, path: seq<nat>)
    requires SameTopology(prev, cur) && n < |cur| && n in u && m < |prev| && Linked(prev, m, n) && Origin(prev, u, m, path)
    requires Steps(cur, n) == Steps(prev, m) + 1 && GmRank(cur, n) == GmRank(prev, m) && GmIdentity(cur, n) == GmIdentity(prev, m)
    ensures Origin(cur, u, n, path + [n])
  {
    hide Linked;
    ExtendedWalkIn(prev, u, path, n);
    SameWalkIn(prev, cur, u, path + [n]);
    SameNames(prev, cur, path[0]);
  }

  lemma OwnOrigin(net: Net, u: set<nat>, n: nat)
    requires n < |net| && n in u
    requires Steps(net, n) == 0 && GmIdentity(net, n) == Identity(net, n) && GmRank(net, n) == Rank(Own(net, n))
    ensures Origin(net, u, n, [n])
  {
  }

  /** A clock concludes a traceable claim, or one that was k steps old in prev. */
  lemma SoundOrOlder(prev: Net, cur: Net, u: set<nat>, n: nat, bests: seq<Option<Dataset>>, k: nat)
    requires StageOf(prev, cur, n, bests) && SoundBelow(prev, u, k) && Shut(prev, u) && n in u
    ensures Sound(cur, u, n) || k < Steps(cur, n) <= 255
  {
    hide Topology, Hearkens, Concluded, Origin, Leading, Linked, Shut;
    if Leading(Own(cur, n), bests) {
      LeadingRank(cur, n, bests);
      OwnOrigin(cur, u, n);
    } else {
      var m := Followed(prev, cur, n, bests);
      IsShut(prev, u, n, m);
      if Sound(prev, u, m) {
        var path :| Origin(prev, u, m, path);
        ExtendedOrigin(prev, cur, u, n, m, path);
      }
    }
  }

  /** Each stage makes the claims that cannot be traced one step older, until they
      are too old to be heard. */
  lemma NextIsSounder(prev: Net, cur: Net, bests: seq<seq<Option<Dataset>>>, u: set<nat>, k: nat)
    requires Stage(prev, cur, bests) && SoundBelow(prev, u, k) && Shut(prev, u)
    ensures SoundBelow(cur, u, k + 1) && (k >= 255 ==> AllSound(cur, u))
  {
    hide Stage, StageOf, Sound, Shut;
    forall n: nat | n < |cur| && n in u ensures Sound(cur, u, n) || k < Steps(cur, n) <= 255 {
      StageAt(prev, cur, bests, n);
      SoundOrOlder(prev, cur, u, n, bests[n], k);
    }
  }

  // ---------------------------------------------------------------------
  // The best clock of a component
  // ---------------------------------------------------------------------

  /** No clock of the region that can be reached from clock r through it is as good. */
  ghost predicate BestClock(net: Net, u: set<nat>, r: nat) {
    && r < |net| && r in u
    && forall path {:trigger WalkIn(net, u, path)} | WalkIn(net, u, path) && path[0] == r && path[|path| - 1] != r ::
         DscmpSets(Own(net, r), Own(net, path[|path| - 1])) > 0
  }

  lemma BestThere(net: Net, u: set<nat>, r: nat, path: seq<nat>, n: nat)
    requires BestClock(net, u, r) && WalkIn(net, u, path) && path[0] == r && n == path[|path| - 1] && n != r
    ensures n < |net| && DscmpSets(Own(net, r), Own(net, n)) > 0
  {
  }

  lemma SameBest(a: Net, b: Net, u: set<nat>, r: nat)
    requires SameTopology(a, b) && BestClock(a, u, r)
    ensures BestClock(b, u, r)
  {
    forall path | WalkIn(b, u, path) && path[0] == r && path[|path| - 1] != r
      ensures DscmpSets(Own(b, r), Own(b, path[|path| - 1])) > 0
    {
      SameWalkIn(b, a, u, path);
      SameNames(a, b, r);
      SameNames(a, b, path[|path| - 1]);
    }
  }

  /** The clock that a claim came from, seen from the best clock. */
  lemma TracedTo(net: Net, u: set<nat>, r: nat, n: nat, up: seq<nat>) returns (s: nat, path: seq<nat>)
    requires Topology(net) && BestClock(net, u, r) && Sound(net, u, n)
    requires WalkIn(net, u, up) && up[0] == r && up[|up| - 1] == n
    ensures Origin(net, u, n, path) && path[0] == s && s < |net| && n < |net|
    ensures s != r ==> DscmpSets(Own(net, r), Own(net, s)) > 0
  {
    hide Topology, BestClock, Linked;
    path :| Origin(net, u, n, path);
    s := path[0];
    WalkBackIn(net, u, path);
    JoinWalksIn(net, u, up, Reversed(path));
    if s != r {
      BestThere(net, u, r, up + Reversed(path)[1..], s);
    }
  }

  /** Whoever announces the best clock is at least as far away as it says. */
  lemma TracedToBest(net: Net, u: set<nat>, r: nat, n: nat, up: seq<nat>) returns (path: seq<nat>)
    requires Topology(net) && BestClock(net, u, r) && Sound(net, u, n)
    requires WalkIn(net, u, up) && up[0] == r && up[|up| - 1] == n && GmIdentity(net, n) == Identity(net, r)
    ensures Origin(net, u, n, path) && path[0] == r && GmRank(net, n) == Rank(Own(net, r))
  {
    hide Topology, BestClock, Sound, Linked;
    var s;
    s, path := TracedTo(net, u, r, n, up);
    if s != r {
      DifferentIdentities(net, s, r);
    }
  }

  /** What a clock of the component announced ranks behind the best clock, or is it. */
  lemma NoBetterClaim(net: Net, u: set<nat>, r: nat, n: nat, up: seq<nat>)
    requires Topology(net) && BestClock(net, u, r) && Sound(net, u, n)
    requires WalkIn(net, u, up) && up[0] == r && up[|up| - 1] == n
    ensures GmIdentity(net, n) == Identity(net, r) ==> GmRank(net, n) == Rank(Own(net, r))
    ensures GmIdentity(net, n) != Identity(net, r) ==> Memcmp(Rank(Own(net, r)), GmRank(net, n)) < 0
  {
    hide Topology, BestClock, Sound, Rank, DscmpSets, Memcmp, Linked;
    var s, path := TracedTo(net, u, r, n, up);
    if s != r {
      DifferentIdentities(net, s, r);
      RanksDecide(Own(net, r), Own(net, s));
    }
  }

  /** Between different grandmasters the ranks decide. */
  lemma RanksDecide(a: Dataset, b: Dataset)
    requires a.identity != b.identity
    ensures DscmpSets(a, b) > 0 <==> Memcmp(Rank(a), Rank(b)) < 0
    ensures DscmpSets(a, b) >= 0 ==> Memcmp(Rank(a), Rank(b)) < 0
  {
    DscmpDifferentIdentity(a, b);
    MemcmpAntisymmetric(Rank(a), Rank(b));
  }

  lemma OwnIsNearer(own: Dataset, d: Dataset)
    requires own.identity == d.identity && own.stepsRemoved == 0 < d.stepsRemoved && d.sender != d.receiver
    ensures DscmpSets(own, d) > 0
  {
    MemcmpAntisymmetric(own.identity, d.identity);
    PidCmpZero(d.receiver, d.sender);
  }

  /** What a clock of a shut region hears comes from the region. */
  lemma HeardInside(prev: Net, cur: Net, u: set<nat>, n: nat, bests: seq<Option<Dataset>>, p: nat)
    requires StageOf(prev, cur, n, bests) && Shut(prev, u) && n in u && p < |bests| && bests[p].Some?
    ensures IsPort(prev, n, p)
    ensures var m := prev[n].peers[p].0; m < |prev| && m in u && Linked(prev, n, m) && Linked(prev, m, n)
  {
    hide Concluded, Linked, Shut;
    HeardOn(prev, cur, n, bests, p);
    PeerOf(prev, n, p);
    IsShut(prev, u, n, prev[n].peers[p].0);
  }

  /** The best clock of a component is its own grandmaster. */
  lemma BestLeads(prev: Net, cur: Net, u: set<nat>, r: nat, bests: seq<Option<Dataset>>)
    requires StageOf(prev, cur, r, bests) && BestClock(prev, u, r) && AllSound(prev, u) && Shut(prev, u)
    ensures Leading(Own(cur, r), bests)
  {
    hide Topology, Hearkens, Concluded, Sound, BestClock, DscmpSets, Shut;
    SameNames(prev, cur, r);
    var b := ClockBest(Dscmp(IEEE1588), bests);
    if b.Some? {
      BestBeats(prev, cur, u, r, bests, b.value);
    }
  }

  lemma BestBeats(prev: Net, cur: Net, u: set<nat>, r: nat, bests: seq<Option<Dataset>>, p: nat)
    requires StageOf(prev, cur, r, bests) && BestClock(prev, u, r) && AllSound(prev, u) && Shut(prev, u)
    requires p < |bests| && bests[p].Some?
    ensures DscmpSets(Own(prev, r), bests[p].value) > 0
  {
    hide Topology, Hearkens, Concluded, Sound, HearsPeer, Shut, Linked;
    assert r in u;
    hide BestClock;
    HeardOn(prev, cur, r, bests, p);
    HeardInside(prev, cur, u, r, bests, p);
    var d, m := bests[p].value, prev[r].peers[p].0;
    WalkOfLink(prev, u, r, m);
    PeerOf(prev, r, p);
    if d.identity == Identity(prev, r) {
      var path := TracedToBest(prev, u, r, m, [r, m]);
      assert |path| > 1;
      OwnIsNearer(Own(prev, r), d);
    } else {
      NoBetterClaim(prev, u, r, m, [r, m]);
      RanksDecide(Own(prev, r), d);
    }
  }

  // ---------------------------------------------------------------------
  // Hearing of the best clock
  // ---------------------------------------------------------------------

  /** What a clock compares, when all claims can be traced. */
  lemma AreComparable(prev: Net, cur: Net, u: set<nat>, n: nat, bests: seq<Option<Dataset>>, p: nat, x: nat)
    requires StageOf(prev, cur, n, bests) && AllSound(prev, u) && Shut(prev, u) && n in u
    requires p < |bests| && x < |bests| && bests[p].Some? && bests[x].Some?
    ensures Comparable(IEEE1588, bests[p].value, bests[x].value)
  {
    hide Topology, Hearkens, Concluded, HearsPeer, Origin, Shut, Linked;
    HeardOn(prev, cur, n, bests, p);
    HeardOn(prev, cur, n, bests, x);
    HeardInside(prev, cur, u, n, bests, p);
    HeardInside(prev, cur, u, n, bests, x);
    var a, b := bests[p].value, bests[x].value;
    var m, k := prev[n].peers[p].0, prev[n].peers[x].0;
    if a.identity == b.identity {
      SameClaimSameRank(prev, u, m, k);
      RankIdentity(a, b);
    }
  }

  lemma SameClaimSameRank(net: Net, u: set<nat>, m: nat, k: nat)
    requires Topology(net) && m < |net| && k < |net| && Sound(net, u, m) && Sound(net, u, k)
    requires GmIdentity(net, m) == GmIdentity(net, k)
    ensures GmRank(net, m) == GmRank(net, k)
  {
    hide Topology, Linked;
    var one :| Origin(net, u, m, one);
    var two :| Origin(net, u, k, two);
    if one[0] != two[0] {
      DifferentIdentities(net, one[0], two[0]);
    }
  }

  lemma Unbeaten(prev: Net, cur: Net, u: set<nat>, n: nat, bests: seq<Option<Dataset>>, p: nat)
    requires StageOf(prev, cur, n, bests) && AllSound(prev, u) && Shut(prev, u) && n in u && p < |bests| && bests[p].Some?
    ensures var b := ClockBest(Dscmp(IEEE1588), bests);
            b.Some? && DscmpSets(bests[b.value].value, bests[p].value) >= 0
  {
    hide StageOf, Comparable, AllSound, Shut;
    forall i, j | 0 <= i < |bests| && 0 <= j < |bests| && bests[i].Some? && bests[j].Some?
      ensures Comparable(IEEE1588, bests[i].value, bests[j].value)
    {
      AreComparable(prev, cur, u, n, bests, i, j);
    }
    ClockBestIsBest(IEEE1588, bests, p);
  }

  /** A clock that hears of the best clock of its component finds it the best. */
  lemma FindsBest(prev: Net, cur: Net, u: set<nat>, r: nat, n: nat, bests: seq<Option<Dataset>>, p: nat, up: seq<nat>)
    requires StageOf(prev, cur, n, bests) && BestClock(prev, u, r) && AllSound(prev, u) && Shut(prev, u)
    requires WalkIn(prev, u, up) && up[0] == r && up[|up| - 1] == n
    requires p < |bests| && bests[p].Some? && bests[p].value.identity == Identity(prev, r)
    ensures var b := ClockBest(Dscmp(IEEE1588), bests);
            b.Some? && bests[b.value].value.identity == Identity(prev, r) && Rank(bests[b.value].value) == Rank(Own(prev, r))
            && bests[b.value].value.stepsRemoved <= bests[p].value.stepsRemoved
  {
    hide Topology, Hearkens, Concluded, HearsPeer, Sound, BestClock, DscmpSets, Shut, Linked;
    Unbeaten(prev, cur, u, n, bests, p);
    var b := ClockBest(Dscmp(IEEE1588), bests).value;
    var best, heard := bests[b].value, bests[p].value;
    HeardFromComponent(prev, cur, u, r, n, bests, p, up);
    HeardFromComponent(prev, cur, u, r, n, bests, b, up);
    if best.identity != Identity(prev, r) {
      RanksDecide(best, heard);
      MemcmpAntisymmetric(Rank(heard), Rank(best));
    } else {
      NotFarther(best, heard);
    }
  }

  lemma HeardFromComponent(prev: Net, cur: Net, u: set<nat>, r: nat, n: nat, bests: seq<Option<Dataset>>, p: nat, up: seq<nat>)
    requires StageOf(prev, cur, n, bests) && BestClock(prev, u, r) && AllSound(prev, u) && Shut(prev, u)
    requires WalkIn(prev, u, up) && up[0] == r && up[|up| - 1] == n && p < |bests| && bests[p].Some?
    ensures var d := bests[p].value;
            && d.sender != d.receiver
            && (d.identity == Identity(prev, r) ==> Rank(d) == Rank(Own(prev, r)))
            && (d.identity != Identity(prev, r) ==> Memcmp(Rank(Own(prev, r)), Rank(d)) < 0)
  {
    hide Topology, Hearkens, Concluded, HearsPeer, Sound, BestClock, Shut, Linked;
    HeardOn(prev, cur, n, bests, p);
    HeardInside(prev, cur, u, n, bests, p);
    var m := prev[n].peers[p].0;
    ExtendedWalkIn(prev, u, up, m);
    NoBetterClaim(prev, u, r, m, up + [m]);
  }

  /** It then announces it itself. */
  lemma Adopts(prev: Net, cur: Net, u: set<nat>, r: nat, n: nat, bests: seq<Option<Dataset>>, p: nat, up: seq<nat>)
    requires StageOf(prev, cur, n, bests) && BestClock(prev, u, r) && AllSound(prev, u) && Shut(prev, u) && n != r
    requires WalkIn(prev, u, up) && up[0] == r && up[|up| - 1] == n
    requires p < |bests| && bests[p].Some? && bests[p].value.identity == Identity(prev, r)
    ensures GmIdentity(cur, n) == Identity(cur, r) && Steps(cur, n) <= bests[p].value.stepsRemoved + 1
  {
    hide Topology, Hearkens, Concluded, HearsPeer, Sound, BestClock, DscmpSets, Shut, Linked;
    FindsBest(prev, cur, u, r, n, bests, p, up);
    var best := bests[ClockBest(Dscmp(IEEE1588), bests).value].value;
    SameNames(prev, cur, r);
    SameNames(prev, cur, n);
    DifferentIdentities(prev, n, r);
    BestThere(prev, u, r, up, n);
    RanksDecide(Own(prev, r), Own(prev, n));
    MemcmpAntisymmetric(Rank(Own(prev, r)), Rank(Own(prev, n)));
    RanksDecide(Own(prev, n), best);
    FollowedRank(cur, n, bests);
  }

  // ---------------------------------------------------------------------
  // Who transmits
  // ---------------------------------------------------------------------

  /** A port is silent only towards a clock that announced the same grandmaster
      and wins the comparison of steps and ports. */
  lemma SilentTowards(prev: Net, cur: Net, n: nat, bests: seq<Option<Dataset>>, p: nat)
    requires StageOf(prev, cur, n, bests) && p < |bests| && !Transmits(cur, n, p)
    ensures var (m, q) := prev[n].peers[p];
            && m < |prev| && Steps(prev, m) < 255 && Transmits(prev, m, q) && GmIdentity(prev, m) == GmIdentity(cur, n)
            && (Steps(prev, m) + 1 == Steps(cur, n)
                || (Steps(prev, m) == Steps(cur, n) && PidCmp(Pid(prev, m, q), Pid(prev, n, p)) < 0))
  {
    hide Topology, Hearkens, DscmpSets;
    HeardOn(prev, cur, n, bests, p);
    FollowedRank(cur, n, bests);
    var b := ClockBest(Dscmp(IEEE1588), bests).value;
    if p != b {
      TopologyTies(bests[b].value, bests[p].value);
      LosesTheTie(bests[b].value, bests[p].value);
    }
  }

  /** A port that hears its far end announce the same grandmaster transmits only
      if it wins that comparison. */
  lemma TransmitsAgainst(prev: Net, cur: Net, n: nat, bests: seq<Option<Dataset>>, p: nat)
    requires StageOf(prev, cur, n, bests) && AllSound(prev, All(prev))
    requires p < |bests| && Transmits(cur, n, p) && bests[p].Some?
    requires var m := prev[n].peers[p].0; m < |prev| && GmIdentity(prev, m) == GmIdentity(cur, n)
    requires var m := prev[n].peers[p].0; Leading(Own(cur, n), bests) ==> Steps(prev, m) > 0
    ensures var (m, q) := prev[n].peers[p];
            Steps(cur, n) < Steps(prev, m)
            || (Steps(prev, m) == Steps(cur, n) && PidCmp(Pid(prev, n, p), Pid(prev, m, q)) < 0)
  {
    hide Topology, Hearkens, DscmpSets, AllSound;
    HeardOn(prev, cur, n, bests, p);
    if Leading(Own(cur, n), bests) {
      LeadingRank(cur, n, bests);
    } else {
      FollowedRank(cur, n, bests);
      AllIsShut(prev);
      Unbeaten(prev, cur, All(prev), n, bests, p);
      var b := ClockBest(Dscmp(IEEE1588), bests).value;
      HeardOn(prev, cur, n, bests, b);
      DifferentSenders(prev, n, p, b);
      NotBetterByTopology(bests[b].value, bests[p].value);
    }
  }

  lemma DeafTransmits(prev: Net, cur: Net, n: nat, bests: seq<Option<Dataset>>, p: nat)
    requires StageOf(prev, cur, n, bests) && p < |bests| && bests[p].None?
    ensures Transmits(cur, n, p)
  {
    if !Transmits(cur, n, p) {
      SilentTowards(prev, cur, n, bests, p);
      HeardOn(prev, cur, n, bests, p);
    }
  }

  /** A clock that hears of another grandmaster announces a better one. */
  lemma OutranksHeard(prev: Net, cur: Net, n: nat, bests: seq<Option<Dataset>>, p: nat)
    requires StageOf(prev, cur, n, bests) && AllSound(prev, All(prev)) && p < |bests| && bests[p].Some?
    requires var m := prev[n].peers[p].0; m < |prev| && GmIdentity(prev, m) != GmIdentity(cur, n)
    ensures var m := prev[n].peers[p].0; Memcmp(GmRank(cur, n), GmRank(prev, m)) < 0
  {
    hide Topology, Hearkens, Concluded, HearsPeer, DscmpSets, Memcmp, AllSound, Rank, GmRank;
    AllIsShut(prev);
    Unbeaten(prev, cur, All(prev), n, bests, p);
    var b := ClockBest(Dscmp(IEEE1588), bests).value;
    var best, heard := bests[b].value, bests[p].value;
    HeardOn(prev, cur, n, bests, p);
    HeardOn(prev, cur, n, bests, b);
    AreComparable(prev, cur, All(prev), n, bests, b, p);
    if best.identity != heard.identity {
      RanksDecide(best, heard);
    } else {
      SameRank(best, heard);
    }
    if Leading(Own(cur, n), bests) {
      LeadingRank(cur, n, bests);
      LeaderOutranks(prev, cur, n, bests, b);
      MemcmpTransitive(Rank(Own(cur, n)), Rank(best), Rank(heard));
    } else {
      FollowedRank(cur, n, bests);
    }
  }

  lemma SameRank(a: Dataset, b: Dataset)
    requires Comparable(IEEE1588, a, b) && a.identity == b.identity
    ensures Rank(a) == Rank(b) && Memcmp(Rank(a), Rank(b)) == 0
  {
    MemcmpAntisymmetric(Rank(a), Rank(b));
  }

  /** A root ranks before what it hears, or hears of itself. */
  lemma LeaderOutranks(prev: Net, cur: Net, n: nat, bests: seq<Option<Dataset>>, b: nat)
    requires StageOf(prev, cur, n, bests) && AllSound(prev, All(prev)) && Leading(Own(cur, n), bests)
    requires b < |bests| && ClockBest(Dscmp(IEEE1588), bests) == Some(b)
    ensures var d := bests[b].value;
            if d.identity == Identity(cur, n) then Rank(Own(cur, n)) == Rank(d) && Memcmp(Rank(Own(cur, n)), Rank(d)) == 0
            else Memcmp(Rank(Own(cur, n)), Rank(d)) < 0
  {
    hide Topology, Hearkens, Concluded, HearsPeer, DscmpSets, Memcmp;
    HeardOn(prev, cur, n, bests, b);
    SameNames(prev, cur, n);
    var d, m := bests[b].value, prev[n].peers[b].0;
    if d.identity == Identity(cur, n) {
      assert Sound(prev, All(prev), m);
      OwnClaim(prev, All(prev), n, m);
      MemcmpAntisymmetric(Rank(Own(cur, n)), Rank(d));
    } else {
      RanksDecide(Own(cur, n), d);
    }
  }

  lemma OwnClaim(net: Net, u: set<nat>, n: nat, m: nat)
    requires Topology(net) && n < |net| && m < |net| && Sound(net, u, m) && GmIdentity(net, m) == Identity(net, n)
    ensures GmRank(net, m) == Rank(Own(net, n))
  {
    hide Topology, Linked;
    var path :| Origin(net, u, m, path);
    if path[0] != n {
      DifferentIdentities(net, path[0], n);
    }
  }
}
