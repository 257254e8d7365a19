/** A resting network in which some clocks are transparent ones that forward along
    the spanning tree (tc_spanning_tree): they announce nothing of their own, but
    relay the Announces that they follow, one step further away. */
module ForwardingTheory {
  import opened DataSets
  import opened Bmc
  import opened Fsm
  import opened PortBmc
  import opened ClockBmc
  import opened ClockTheory
  import opened Network
  import TransparentClock

  /** A message in the common domain passes through transparent clock n from port q
      to port p. */
  predicate Passes(net: Net, n: nat, q: nat, p: nat, kind: TransparentClock.Kind) {
    && IsPort(net, n, q) && IsPort(net, n, p) && net[n].transparent
    && !TransparentClock.Blocked(q + 1, p + 1, true, true, State(net, n, q), State(net, n, p), kind)
  }

  /** What clock n follows, on the port with its best data set. */
  function Followed(net: Net, now: int, n: nat): Option<Content>
    requires n < |net| && |net[n].clock.ports| == |net[n].cfg.ports|
  {
    var b := BestPort(net, n, now);
    if b.None? then None else Some(ContentOf(Bests(net, n, now)[b.value].value))
  }

  /** The one port that synchronizes is the one with the clock's best data set. */
  lemma SynchronizesByBest(net: Net, now: int, n: nat, p: nat)
    requires Resting(net, now) && IsPort(net, n, p) && Synchronizing(State(net, n, p))
    ensures |net[n].clock.ports| == |net[n].cfg.ports|
    ensures !Root(net, n, now) && BestPort(net, n, now) == Option.Some(p)
    ensures Steps(net, n) == 1 + Followed(net, now, n).value.stepsRemoved
  {
    RestingAt(net, now, n, p);
    QuietIsSettled(net, n, now);
    SlaveIsBest(net, now, n, p);
  }

  lemma SlaveIsBest(net: Net, now: int, n: nat, p: nat)
    requires Topology(net) && IsPort(net, n, p) && Quiet(net, n, now) && Synchronizing(State(net, n, p))
    ensures !Root(net, n, now) && BestPort(net, n, now) == Option.Some(p)
  {
    var d := QuietStates(net, n, now);
    QuietRecommendations(net, n, now, d, p);
    RecommendedIs(net[n].cfg, d, p);
  }

  /** Through each port that it transmits by, a transparent clock that synchronizes
      by port b announces what it follows there, one step further away. */
  lemma RelaysFollowed(net: Net, now: int, m: nat, q: nat, b: nat)
    requires Resting(net, now) && IsPort(net, m, b) && Synchronizing(State(net, m, b))
    requires net[m].transparent && Transmits(net, m, q)
    ensures |net[m].clock.ports| == |net[m].cfg.ports|
    ensures var c := Followed(net, now, m);
            c.Some? && Sends(net, now, m, q) == Some(c.value.(stepsRemoved := c.value.stepsRemoved + 1))
  {
    SynchronizesByBest(net, now, m, b);
    assert Upstream(net, now, m, b);
    forall x: nat | Upstream(net, now, m, x) ensures x == b {
      SynchronizesByBest(net, now, m, x);
    }
  }

  /** The hops of a message: it leaves clock c by port p, and is received by the
      next clock on the port at the other end. */
  datatype Hop = Hop(clock: nat, ingress: nat, egress: nat)

  ghost predicate Travels(net: Net, hops: seq<Hop>, kind: TransparentClock.Kind) {
    && (forall i | 0 <= i < |hops| :: Passes(net, hops[i].clock, hops[i].ingress, hops[i].egress, kind))
    && forall i | 0 < i < |hops| :: net[hops[i - 1].clock].peers[hops[i - 1].egress] == (hops[i].clock, hops[i].ingress)
  }

  /** Clock n follows what transparent clock m follows, one step further away. */
  ghost predicate FollowsThrough(net: Net, now: int, n: nat, m: nat) {
    && n < |net| && |net[n].clock.ports| == |net[n].cfg.ports| && m < |net| && |net[m].clock.ports| == |net[m].cfg.ports|
    && var c, d := Followed(net, now, m), Followed(net, now, n);
       c.Some? && d == Some(c.value.(stepsRemoved := c.value.stepsRemoved + 1))
  }

  /** A clock that synchronizes by a port at the other end of which a transparent
      clock transmits, which synchronizes too. */
  lemma NextFollows(net: Net, now: int, n: nat, p: nat, m: nat, q: nat, b: nat)
    requires Resting(net, now) && IsPort(net, n, p) && Synchronizing(State(net, n, p)) && net[n].peers[p] == (m, q)
    requires IsPort(net, m, b) && net[m].transparent && Synchronizing(State(net, m, b)) && Transmits(net, m, q)
    ensures FollowsThrough(net, now, n, m) && Steps(net, n) == Steps(net, m) + 1
  {
    SynchronizesByBest(net, now, n, p);
    SynchronizesByBest(net, now, m, b);
    RelaysFollowed(net, now, m, q, b);
    RestingAt(net, now, n, p);
  }

  /** One hop goes one step away from the grandmaster, a Delay_Req one step closer:
      either way one of the two clocks follows what the other relays. */
  lemma HopChangesDepth(net: Net, now: int, a: Hop, b: Hop, kind: TransparentClock.Kind)
    requires Resting(net, now)
    requires Passes(net, a.clock, a.ingress, a.egress, kind) && Passes(net, b.clock, b.ingress, b.egress, kind)
    requires net[a.clock].peers[a.egress] == (b.clock, b.ingress)
    ensures if kind == TransparentClock.DELAY_REQ then
              FollowsThrough(net, now, a.clock, b.clock) && Steps(net, a.clock) == Steps(net, b.clock) + 1
            else
              FollowsThrough(net, now, b.clock, a.clock) && Steps(net, b.clock) == Steps(net, a.clock) + 1
  {
    if kind == TransparentClock.DELAY_REQ {
      PassesTowards(net, now, a);
      PassesTowards(net, now, b);
      NextFollows(net, now, a.clock, a.egress, b.clock, b.ingress, b.egress);
    } else {
      PassesAway(net, now, a, kind);
      PassesAway(net, now, b, kind);
      LinkBack(net, a.clock, a.egress);
      NextFollows(net, now, b.clock, b.ingress, a.clock, a.egress, a.ingress);
    }
  }

  lemma LinkBack(net: Net, n: nat, p: nat)
    requires Topology(net) && IsPort(net, n, p)
    ensures var (m, q) := net[n].peers[p]; IsPort(net, m, q) && net[m].peers[q] == (n, p)
  {
  }

  lemma OneSynchronizes(net: Net, n: nat, p: nat, q: nat)
    requires Topology(net) && IsPort(net, n, p) && IsPort(net, n, q) && p != q
    ensures !(Synchronizing(State(net, n, p)) && Synchronizing(State(net, n, q)))
  {
    assert ClockInv(net[n].cfg, net[n].clock) && SingleSlave(net[n].clock);
    if p < q {
      assert !(Synchronizing(net[n].clock.ports[p].state) && Synchronizing(net[n].clock.ports[q].state));
    } else {
      assert !(Synchronizing(net[n].clock.ports[q].state) && Synchronizing(net[n].clock.ports[p].state));
    }
  }

  lemma PassesTowards(net: Net, now: int, a: Hop)
    requires Resting(net, now) && Passes(net, a.clock, a.ingress, a.egress, TransparentClock.DELAY_REQ)
    ensures Transmits(net, a.clock, a.ingress) && Synchronizing(State(net, a.clock, a.egress))
  {
    OneSynchronizes(net, a.clock, a.ingress, a.egress);
  }

  lemma PassesAway(net: Net, now: int, a: Hop, kind: TransparentClock.Kind)
    requires Resting(net, now) && Passes(net, a.clock, a.ingress, a.egress, kind) && kind != TransparentClock.DELAY_REQ
    ensures Synchronizing(State(net, a.clock, a.ingress)) && Transmits(net, a.clock, a.egress)
  {
    OneSynchronizes(net, a.clock, a.ingress, a.egress);
  }

  /** So no message goes in circles, however the network is cabled: it visits
      every clock at most once. */
  lemma NoForwardingLoop(net: Net, now: int, hops: seq<Hop>, kind: TransparentClock.Kind, i: nat, j: nat)
    requires Resting(net, now) && Travels(net, hops, kind) && i < j < |hops|
    ensures hops[i].clock != hops[j].clock
    ensures if kind == TransparentClock.DELAY_REQ then Steps(net, hops[i].clock) == Steps(net, hops[j].clock) + (j - i)
            else Steps(net, hops[j].clock) == Steps(net, hops[i].clock) + (j - i)
  {
    hide Resting, Topology, Followed;
    assert Passes(net, hops[i].clock, hops[i].ingress, hops[i].egress, kind);
    HopChangesDepth(net, now, hops[j - 1], hops[j], kind);
    if i < j - 1 {
      NoForwardingLoop(net, now, hops, kind, i, j - 1);
    }
  }

  // ---------------------------------------------------------------------
  // Where an Announce comes from
  // ---------------------------------------------------------------------

  /** Each clock of a path is at the far end of the port by which the one before it
      synchronizes; all but the first and the last are transparent. */
  ghost predicate UpstreamPath(net: Net, path: seq<nat>) {
    && path != [] && (forall i | 0 <= i < |path| :: path[i] < |net|)
    && (forall i: nat | 0 < i < |path| - 1 :: net[path[i]].transparent)
    && forall i: nat | i < |path| - 1 :: FarEnd(net, path[i], path[i + 1])
  }

  ghost predicate FarEnd(net: Net, n: nat, m: nat) {
    exists p: nat :: IsPort(net, n, p) && Synchronizing(State(net, n, p)) && net[n].peers[p].0 == m
  }

  lemma PathCons(net: Net, n: nat, rest: seq<nat>)
    requires UpstreamPath(net, rest) && n < |net| && FarEnd(net, n, rest[0]) && (|rest| > 1 ==> net[rest[0]].transparent)
    ensures UpstreamPath(net, [n] + rest)
  {
    var path := [n] + rest;
    forall i: nat | i < |path| - 1 ensures FarEnd(net, path[i], path[i + 1]) {
      if i > 0 {
        assert path[i] == rest[i - 1] && path[i + 1] == rest[i];
      }
    }
    forall i: nat | 0 < i < |path| - 1 ensures net[path[i]].transparent {
      assert path[i] == rest[i - 1];
    }
  }

  /** What a clock follows was announced by a port of a boundary clock, which the
      transparent clocks on the way count as steps: the sender is that port, and the
      clock is as many steps further away as links lie between. */
  lemma {:induction false} AnnounceComesFrom(net: Net, now: int, n: nat, p: nat) returns (path: seq<nat>, q: nat)
    requires Resting(net, now) && IsPort(net, n, p) && Synchronizing(State(net, n, p))
    ensures UpstreamPath(net, path) && |path| > 1 && path[0] == n
    ensures var m := path[|path| - 1];
            && !net[m].transparent && IsPort(net, m, q) && Transmits(net, m, q)
            && Steps(net, n) == Steps(net, m) + |path| - 1
    ensures n < |net| && |net[n].clock.ports| == |net[n].cfg.ports|
    ensures var c := Followed(net, now, n); c.Some? && c.value.sender == Pid(net, path[|path| - 1], q)
    decreases Steps(net, n)
  {
    hide Resting, Topology, Bests, Followed, Sends;
    var m: nat, x: nat := net[n].peers[p].0, net[n].peers[p].1;
    SynchronizesByBest(net, now, n, p);
    HeardFrom(net, now, n, p);
    assert FarEnd(net, n, m);
    if net[m].transparent {
      var b := UpstreamPort(net, now, m, x);
      NextFollows(net, now, n, p, m, x, b);
      var rest;
      rest, q := AnnounceComesFrom(net, now, m, b);
      PathCons(net, n, rest);
      path := [n] + rest;
      assert path[|path| - 1] == rest[|rest| - 1];
    } else {
      DirectlyAnnounced(net, now, n, p, m, x);
      path, q := [n, m], x;
    }
  }

  lemma DirectlyAnnounced(net: Net, now: int, n: nat, p: nat, m: nat, q: nat)
    requires Resting(net, now) && IsPort(net, n, p) && Synchronizing(State(net, n, p))
    requires net[n].peers[p] == (m, q) && m < |net| && !net[m].transparent
    ensures |net[n].clock.ports| == |net[n].cfg.ports|
    ensures var c := Followed(net, now, n);
            c.Some? && c.value.sender == Pid(net, m, q) && Steps(net, n) == 1 + Steps(net, m)
  {
    SynchronizesByBest(net, now, n, p);
    HeardFrom(net, now, n, p);
  }

  /** A port that hears something hears it from a port that transmits. */
  lemma HeardFrom(net: Net, now: int, n: nat, p: nat)
    requires Resting(net, now) && IsPort(net, n, p)
    requires p < |net[n].cfg.ports| == |net[n].clock.ports| && Bests(net, n, now)[p].Some?
    ensures var (m, q) := net[n].peers[p];
            && IsPort(net, m, q) && Transmits(net, m, q) && |net[m].clock.ports| == |net[m].cfg.ports|
            && Sends(net, now, m, q) == Some(ContentOf(Bests(net, n, now)[p].value))
  {
    RestingAt(net, now, n, p);
  }

  /** A transparent clock that sends Announces synchronizes. */
  lemma UpstreamPort(net: Net, now: int, m: nat, q: nat) returns (b: nat)
    requires Resting(net, now) && IsPort(net, m, q) && net[m].transparent
    requires |net[m].clock.ports| == |net[m].cfg.ports| && Sends(net, now, m, q).Some?
    ensures IsPort(net, m, b) && Synchronizing(State(net, m, b))
  {
    b :| Upstream(net, now, m, b);
  }
}
