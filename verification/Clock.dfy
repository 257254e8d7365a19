/** The state decision event of a clock (clock.c). */
module ClockBmc {
  import opened Octets
  import opened DataSets
  import opened Bmc
  import opened Fsm
  import opened ForeignMasters
  import opened PortBmc
  import opened PortTheory

  datatype DefaultDS = DefaultDS(
    priority1: U8, clockIdentity: ClockIdentity, clockQuality: ClockQuality, priority2: U8, localPriority: U8)

  /** The grandmaster and parent a clock announces. */
  datatype ParentDS = ParentDS(
    parentPortIdentity: PortIdentity, grandmasterIdentity: ClockIdentity,
    grandmasterClockQuality: ClockQuality, grandmasterPriority1: U8, grandmasterPriority2: U8)

  datatype ClockConfig = ClockConfig(dds: DefaultDS, ports: seq<PortConfig>, cmp: Comparison)

  /** best is the number of the port whose best record is the clock's best. */
  datatype ClockValue = ClockValue(
    ports: seq<PortValue>, best: Option<nat>, bestId: ClockIdentity, dad: ParentDS, stepsRemoved: nat)

  /** clock_default_ds() */
  function DefaultDataset(dds: DefaultDS): Dataset {
    var self := PortIdentity(dds.clockIdentity, 0);
    Dataset(dds.priority1, dds.clockIdentity, dds.clockQuality, dds.priority2, dds.localPriority, 0, self, self)
  }

  /** What clock_update_grandmaster() makes of the parent data set. */
  function OwnParent(dds: DefaultDS): ParentDS {
    ParentDS(PortIdentity(dds.clockIdentity, 0), dds.clockIdentity, dds.clockQuality, dds.priority1, dds.priority2)
  }

  /** What clock_update_slave() makes of it. */
  function SlaveParent(sender: PortIdentity, m: Announce): ParentDS {
    ParentDS(sender, m.grandmasterIdentity, m.grandmasterClockQuality, m.grandmasterPriority1, m.grandmasterPriority2)
  }

  /** The clock's choice among the best data sets of its ports. */
  function ClockBest(cmp: Comparison, bests: seq<Option<Dataset>>): (b: Option<nat>)
    ensures b.Some? ==> b.value < |bests| && bests[b.value].Some?
  {
    if bests == [] then None
    else
      var n := |bests| - 1;
      var b := ClockBest(cmp, bests[..n]);
      if bests[n].Some? && (b.None? || cmp(bests[n].value, bests[b.value].value) > 0) then Some(n) else b
  }

  function BestsOf(ports: seq<PortValue>): (bs: seq<Option<Dataset>>)
    ensures |bs| == |ports|
  {
    seq(|ports|, i requires 0 <= i < |ports| => BestDataset(ports[i]))
  }

  /** The event that carries a recommendation to a port. */
  function EventOf(ps: PortState): Event {
    match ps
    case LISTENING => NONE
    case GRAND_MASTER => RS_GRAND_MASTER
    case MASTER => RS_MASTER
    case PASSIVE => RS_PASSIVE
    case SLAVE => RS_SLAVE
    case _ => FAULT_DETECTED
  }

  /** The recommendation to port i in state ps, given the number of the best
      port and the best data sets of all ports. */
  function Recommendation(
    dds: DefaultDS, cmp: Comparison, best: Option<nat>, bests: seq<Option<Dataset>>, i: nat, ps: PortState): PortState
    requires i < |bests|
  {
    var clockBest := if best.Some? && best.value < |bests| then bests[best.value] else None;
    StateDecision(cmp, DefaultDataset(dds), clockBest, bests[i], best == Some(i), ps)
  }

  /** The best record of a port, which the fields of the parent come from. */
  function BestOf(p: PortValue): Option<Record> {
    if p.best.None? then None
    else
      var i := Find(p.records, p.best.value);
      if i < |p.records| then Some(p.records[i]) else None
  }

  /** The data sets change with the role that port i is recommended. */
  function Assumed(dds: DefaultDS, c: ClockValue, i: nat, ps: PortState): (d: ClockValue)
    requires i < |c.ports|
    ensures d.ports == c.ports && d.best == c.best && d.bestId == c.bestId
  {
    var r := BestOf(c.ports[i]);
    if ps == GRAND_MASTER then c.(dad := OwnParent(dds), stepsRemoved := 0)
    else if ps == SLAVE && r.Some? && r.value.messages != [] then
      c.(dad := SlaveParent(r.value.dataset.sender, r.value.messages[0]),
         stepsRemoved := 1 + r.value.dataset.stepsRemoved)
    else c
  }

  /** The turn of port i in the second loop. */
  function Decided(cfg: ClockConfig, c: ClockValue, i: nat, freshBest: bool, initOk: bool): ClockValue
    requires i < |c.ports| == |cfg.ports|
  {
    var ps := Recommendation(cfg.dds, cfg.cmp, c.best, BestsOf(c.ports), i, c.ports[i].state);
    Assumed(cfg.dds, c, i, ps).(ports := c.ports[i := Dispatched(cfg.ports[i], c.ports[i], EventOf(ps), freshBest, initOk)])
  }

  /** The second loop, over the first n ports. */
  function DecidedUpTo(cfg: ClockConfig, c: ClockValue, n: nat, freshBest: bool, initOk: seq<bool>): (d: ClockValue)
    requires n <= |c.ports| == |cfg.ports| == |initOk|
    ensures |d.ports| == |c.ports|
  {
    if n == 0 then c else Decided(cfg, DecidedUpTo(cfg, c, n - 1, freshBest, initOk), n - 1, freshBest, initOk[n - 1])
  }

  function WithBests(cfg: ClockConfig, c: ClockValue, now: int): (ps: seq<PortValue>)
    requires |c.ports| == |cfg.ports|
    ensures |ps| == |c.ports|
  {
    seq(|c.ports|, i requires 0 <= i < |c.ports| => WithBest(cfg.ports[i], c.ports[i], now))
  }

  /** The first half of handle_state_decision_event(): the choice of a master. */
  function Chosen(cfg: ClockConfig, c: ClockValue, now: int): (d: ClockValue)
    requires |c.ports| == |cfg.ports|
    ensures |d.ports| == |c.ports|
  {
    var ports := WithBests(cfg, c, now);
    var bests := BestsOf(ports);
    var b := ClockBest(cfg.cmp, bests);
    c.(ports := ports, best := b,
       bestId := if b.Some? then bests[b.value].value.identity else cfg.dds.clockIdentity)
  }

  /** handle_state_decision_event() */
  function Decision(cfg: ClockConfig, c: ClockValue, now: int, initOk: seq<bool>): (d: ClockValue)
    requires |c.ports| == |cfg.ports| == |initOk|
    ensures |d.ports| == |c.ports|
  {
    var c1 := Chosen(cfg, c, now);
    DecidedUpTo(cfg, c1, |c1.ports|, c1.bestId != c.bestId, initOk)
  }
}
