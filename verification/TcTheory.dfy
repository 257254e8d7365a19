/** A transparent clock that forwards along the spanning tree (tc_spanning_tree). */
module TcTheory {
  import opened Octets
  import opened DataSets
  import opened Fsm
  import opened PortBmc
  import opened ClockBmc
  import opened ClockTheory
  import opened TransparentClock
  import opened TcMachine

  /** A message in the clock's domain passes from one port to another, in any
      reachable state, exactly when it follows the tree: Delay_Req towards the one
      port that synchronizes, everything else away from it. */
  lemma ForwardsAlongTree(cfg: ClockConfig, steps: seq<Step>, q: nat, p: nat, kind: Kind)
    requires WellFormed(cfg) && q < |cfg.ports| && p < |cfg.ports| && q != p
    ensures |Run(cfg, steps).ports| == |cfg.ports|
    ensures var s := Run(cfg, steps).ports;
            !Blocked(q + 1, p + 1, true, true, s[q].state, s[p].state, kind)
            <==> if kind == DELAY_REQ then Transmitting(s[q].state) && Synchronizing(s[p].state)
                 else Synchronizing(s[q].state) && Transmitting(s[p].state)
  {
    RunKeepsInv(cfg, steps);
    var c := Run(cfg, steps);
    if q < p {
      assert !(Synchronizing(c.ports[q].state) && Synchronizing(c.ports[p].state));
    } else {
      assert !(Synchronizing(c.ports[p].state) && Synchronizing(c.ports[q].state));
    }
  }

  /** What is let through in any state: in the domain of a clock that forwards along the
      tree, Delay_Reqs to a port that synchronizes, and everything else from such a port to
      one that transmits; otherwise everything, but not back to where it came from nor to
      the port for management. */
  lemma PassesExactly(domain: U8, q: PortView, p: PortView, m: Msg)
    ensures !ViewBlocked(domain, q, p, m) <==>
              && p.number != q.number && p.number > 0
              && (q.spanningTree && m.domain == domain ==>
                    if m.kind == DELAY_REQ then
                      (Transmitting(q.state) || Synchronizing(q.state)) && Synchronizing(p.state)
                    else Synchronizing(q.state) && Transmitting(p.state))
  {
  }

  /** So there is one port by which a Delay_Req leaves, and one by which anything
      else enters. */
  lemma OneWayThrough(cfg: ClockConfig, steps: seq<Step>, q: nat, p: nat, q': nat, p': nat, kind: Kind)
    requires WellFormed(cfg) && q < |cfg.ports| && p < |cfg.ports| && q != p
    requires q' < |cfg.ports| && p' < |cfg.ports| && q' != p'
    ensures |Run(cfg, steps).ports| == |cfg.ports|
    ensures var s := Run(cfg, steps).ports;
            !Blocked(q + 1, p + 1, true, true, s[q].state, s[p].state, kind)
            && !Blocked(q' + 1, p' + 1, true, true, s[q'].state, s[p'].state, kind)
            ==> if kind == DELAY_REQ then p == p' else q == q'
  {
    RunKeepsInv(cfg, steps);
    ForwardsAlongTree(cfg, steps, q, p, kind);
    ForwardsAlongTree(cfg, steps, q', p', kind);
    var s := Run(cfg, steps).ports;
    assert SingleSlave(Run(cfg, steps));
  }
}
