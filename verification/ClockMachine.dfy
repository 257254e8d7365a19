/** A clock that changes in place, and its refinement of the step machine. */
module ClockMachine {
  import opened Octets
  import opened DataSets
  import opened Bmc
  import opened Fsm
  import opened ForeignMasters
  import opened PortBmc
  import opened PortTheory
  import opened ClockBmc
  import opened ClockTheory

  class Clock {
    const cfg: ClockConfig
    const ports: seq<Port>
    var best: Option<nat>
    var bestId: ClockIdentity
    var dad: ParentDS
    var stepsRemoved: nat

    /** A clock over ports that have just been opened (clock_create()). */
    constructor (cfg: ClockConfig, ports: seq<Port>)
      requires |ports| == |cfg.ports|
      requires forall i | 0 <= i < |ports| ::
        ports[i].cfg == cfg.ports[i] && ports[i].Valid() && ports[i].Value() == PortValue(INITIALIZING, [], None)
      requires forall i, j | 0 <= i < j < |ports| :: ports[i] != ports[j]
      ensures Valid() && this.cfg == cfg && this.ports == ports && Value() == Initial(cfg)
    {
      this.cfg, this.ports := cfg, ports;
      best, bestId, dad, stepsRemoved := None, cfg.dds.clockIdentity, OwnParent(cfg.dds), 0;
    }

    ghost function Records(): set<object>
      reads ports
    {
      set i, k | 0 <= i < |ports| && 0 <= k < |ports[i].foreignMasters| :: ports[i].foreignMasters[k]
    }

    ghost predicate Valid()
      reads ports, Records()
    {
      && |ports| == |cfg.ports|
      && (forall i | 0 <= i < |ports| :: ports[i].cfg == cfg.ports[i] && ports[i].Valid())
      && (forall i, j | 0 <= i < j < |ports| :: ports[i] != ports[j])
    }

    /** The lists of foreign masters, as objects. */
    ghost function Lists(): (ls: seq<seq<ForeignClock>>)
      reads ports
      ensures |ls| == |ports|
    {
      seq(|ports|, i requires 0 <= i < |ports| reads ports => ports[i].foreignMasters)
    }

    ghost predicate SameLists(ls: seq<seq<ForeignClock>>)
      reads ports
    {
      |ls| == |ports| && forall i | 0 <= i < |ports| :: ports[i].foreignMasters == ls[i]
    }

    ghost function Ports(): (ps: seq<PortValue>)
      reads ports, Records()
      ensures |ps| == |ports|
    {
      seq(|ports|, i requires 0 <= i < |ports| reads ports, Records() => ports[i].Value())
    }

    ghost function Value(): (c: ClockValue)
      reads this, ports, Records()
      ensures |c.ports| == |ports|
    {
      ClockValue(Ports(), best, bestId, dad, stepsRemoved)
    }

    method ComputeBest(i: nat, now: int)
      requires Valid() && i < |ports|
      modifies ports, Records()
      ensures Valid() && SameLists(old(Lists()))
      ensures Ports() == old(Ports())[i := WithBest(cfg.ports[i], old(Ports()[i]), now)]
    {
      hide WithBest;
      ghost var v := WithBest(cfg.ports[i], ports[i].Value(), now);
      assert forall f | f in ports[i].foreignMasters :: f.port == ports[i];
      ports[i].ComputeBest(now);
      assert ports[i].Value() == v;
      forall j | 0 <= j < |ports| && j != i ensures ports[j].Valid() && ports[j].Value() == old(ports[j].Value()) {
        assert forall f | f in ports[j].foreignMasters :: f.port == ports[j];
      }
      assert Ports() == old(Ports())[i := v];
    }

    method Dispatch(i: nat, event: Event, mdiff: bool, initOk: bool)
      requires Valid() && i < |ports|
      modifies ports, Records()
      ensures Valid()
      ensures Ports() == old(Ports())[i := Dispatched(cfg.ports[i], old(Ports()[i]), event, mdiff, initOk)]
      ensures forall f | f in Records() :: f in old(Records())
    {
      hide Dispatched;
      ghost var v := Dispatched(cfg.ports[i], ports[i].Value(), event, mdiff, initOk);
      ports[i].Dispatch(event, mdiff, initOk);
      assert ports[i].Value() == v;
      forall j | 0 <= j < |ports| && j != i ensures ports[j].Valid() && ports[j].Value() == old(ports[j].Value()) {
      }
      assert Ports() == old(Ports())[i := v];
      forall j, k | 0 <= j < |ports| && 0 <= k < |ports[j].foreignMasters|
        ensures ports[j].foreignMasters[k] in old(Records())
      {
        assert ports[j].foreignMasters[k] in old(ports[j].foreignMasters);
      }
    }

    /** clock_best_foreign() and port_best_foreign() read the same data set. */
    lemma PortBest(i: nat)
      requires Valid() && i < |ports|
      ensures BestsOf(Ports())[i] == if ports[i].best == null then None else Some(ports[i].best.dataset)
      ensures BestOf(Ports()[i]) == if ports[i].best == null then None else Some(ports[i].best.Value())
    {
      var p := ports[i];
      if p.best != null {
        var k :| 0 <= k < |p.foreignMasters| && p.foreignMasters[k] == p.best;
        assert p.Records()[k].sender == p.best.sender;
        FindDistinct(p.Records(), k);
      }
    }

    /** The first loop: every port computes its best, the clock the best of those. */
    method Choose(now: int) returns (b: Option<nat>)
      requires Valid()
      modifies ports, Records()
      ensures Valid() && Ports() == WithBests(cfg, old(Value()), now)
      ensures b == ClockBest(cfg.cmp, BestsOf(Ports()))
      ensures SameLists(old(Lists()))
    {
      hide WithBests, WithBest, BestsOf, ClockBest;
      ghost var was, qs, ls := Ports(), WithBests(cfg, Value(), now), Lists();
      WithBestsAre(cfg, Value(), now);
      ghost var bests := BestsOf(qs);
      ChoiceStarts(was, qs, bests);
      b := ChooseAll(was, qs, bests, now, ls);
      ChoiceEnds(was, qs, bests);
    }

    method ChooseAll(
      ghost was: seq<PortValue>, ghost qs: seq<PortValue>, ghost bests: seq<Option<Dataset>>, now: int,
      ghost ls: seq<seq<ForeignClock>>)
      returns (b: Option<nat>)
      requires Choosing(was, qs, bests, 0, None) && SameLists(ls) && bests == BestsOf(qs)
      requires forall i | 0 <= i < |ports| :: qs[i] == WithBest(cfg.ports[i], was[i], now)
      modifies ports, Records()
      ensures Choosing(was, qs, bests, |ports|, b) && SameLists(ls)
    {
      hide WithBest, BestsOf, ClockBest;
      b := None;
      for i := 0 to |ports|
        invariant Choosing(was, qs, bests, i, b) && SameLists(ls)
      {
        b := ChooseNext(was, qs, bests, i, now, b, ls);
      }
    }

    static lemma WithBestsAre(cfg: ClockConfig, c: ClockValue, now: int)
      requires |c.ports| == |cfg.ports|
      ensures forall i | 0 <= i < |c.ports| :: WithBests(cfg, c, now)[i] == WithBest(cfg.ports[i], c.ports[i], now)
    {
      hide WithBest;
    }

    lemma ChoiceStarts(was: seq<PortValue>, qs: seq<PortValue>, bests: seq<Option<Dataset>>)
      requires |was| == |qs| == |bests|
      ensures was == qs[..0] + was[0..] && ClockBest(cfg.cmp, bests[..0]) == None
    {
    }

    lemma ChoiceEnds(was: seq<PortValue>, qs: seq<PortValue>, bests: seq<Option<Dataset>>)
      requires |was| == |qs| == |bests|
      ensures qs[..|qs|] + was[|qs|..] == qs && bests[..|qs|] == bests
    {
    }

    /** The state of the first loop after i ports: qs is what it makes of the ports
        as they were, bests their best data sets. */
    ghost predicate Choosing(was: seq<PortValue>, qs: seq<PortValue>, bests: seq<Option<Dataset>>, i: nat, b: Option<nat>)
      requires i <= |ports|
      reads ports, Records()
    {
      && Valid() && |was| == |qs| == |bests| == |ports|
      && Ports() == qs[..i] + was[i..]
      && b == ClockBest(cfg.cmp, bests[..i])
    }

    static lemma NextChoice(was: seq<PortValue>, qs: seq<PortValue>, ps: seq<PortValue>, i: nat)
      requires i < |was| == |qs| && ps == qs[..i] + was[i..]
      ensures ps[i] == was[i] && ps[i := qs[i]] == qs[..i + 1] + was[i + 1..]
      ensures forall k | 0 <= k <= i :: BestsOf(ps[i := qs[i]])[k] == BestsOf(qs)[k]
    {
      assert forall k | 0 <= k <= i :: ps[i := qs[i]][k] == qs[k];
    }

    /** The body of the first loop. */
    method ChooseNext(
      ghost was: seq<PortValue>, ghost qs: seq<PortValue>, ghost bests: seq<Option<Dataset>>, i: nat, now: int,
      b: Option<nat>, ghost ls: seq<seq<ForeignClock>>)
      returns (b1: Option<nat>)
      requires i < |ports| && Choosing(was, qs, bests, i, b) && SameLists(ls)
      requires bests == BestsOf(qs) && qs[i] == WithBest(cfg.ports[i], was[i], now)
      modifies ports, Records()
      ensures Choosing(was, qs, bests, i + 1, b1) && SameLists(ls)
    {
      hide ClockBest;
      ComputeNext(was, qs, i, now);
      b1 := Better(i, b, bests);
    }

    method ComputeNext(ghost was: seq<PortValue>, ghost qs: seq<PortValue>, i: nat, now: int)
      requires Valid() && i < |ports| == |was| == |qs|
      requires Ports() == qs[..i] + was[i..] && qs[i] == WithBest(cfg.ports[i], was[i], now)
      modifies ports, Records()
      ensures Valid() && Ports() == qs[..i + 1] + was[i + 1..] && SameLists(old(Lists()))
      ensures forall k | 0 <= k <= i :: BestsOf(Ports())[k] == BestsOf(qs)[k]
    {
      hide WithBest, BestsOf;
      NextChoice(was, qs, Ports(), i);
      ComputeBest(i, now);
    }

    static lemma NextBest(cmp: Comparison, bests: seq<Option<Dataset>>, i: nat, b: Option<nat>)
      requires i < |bests| && b == ClockBest(cmp, bests[..i])
      ensures ClockBest(cmp, bests[..i + 1]) ==
              if bests[i].Some? && (b.None? || cmp(bests[i].value, bests[b.value].value) > 0)
              then Some(i) else b
    {
      assert bests[..i + 1][..i] == bests[..i];
    }

    /** Whether the best of port i replaces the best of port b. */
    method Better(i: nat, b: Option<nat>, ghost bests: seq<Option<Dataset>>) returns (b1: Option<nat>)
      requires Valid() && i < |ports| == |bests| && b == ClockBest(cfg.cmp, bests[..i])
      requires forall k | 0 <= k <= i :: BestsOf(Ports())[k] == bests[k]
      ensures b1 == ClockBest(cfg.cmp, bests[..i + 1])
      ensures Valid() && Ports() == old(Ports()) && Lists() == old(Lists())
    {
      PortBest(i);
      if b.Some? {
        PortBest(b.value);
      }
      NextBest(cfg.cmp, bests, i, b);
      b1 := b;
      if ports[i].best != null {
        if b.None? || cfg.cmp(ports[i].best.dataset, ports[b.value].best.dataset) > 0 {
          b1 := Some(i);
        }
      }
    }

    /** bmc_state_decision() for port i. */
    method Recommend(i: nat) returns (ps: PortState)
      requires Valid() && i < |ports|
      requires best.Some? ==> best.value < |ports|
      ensures ps == Recommendation(cfg.dds, cfg.cmp, best, BestsOf(Ports()), i, Ports()[i].state)
      ensures ps == SLAVE ==> best == Some(i)
      ensures Valid() && Value() == old(Value())
    {
      PortBest(i);
      var clockBest := None;
      if best.Some? {
        PortBest(best.value);
        if ports[best.value].best != null {
          clockBest := Some(ports[best.value].best.dataset);
        }
      }
      var portBest := if ports[i].best == null then None else Some(ports[i].best.dataset);
      ps := StateDecision(cfg.cmp, DefaultDataset(cfg.dds), clockBest, portBest, best == Some(i), ports[i].state);
    }

    /** clock_update_grandmaster() */
    method UpdateGrandmaster()
      requires Valid()
      modifies this`dad, this`stepsRemoved
      ensures Valid() && Value() == old(Value()).(dad := OwnParent(cfg.dds), stepsRemoved := 0)
    {
      stepsRemoved := 0;
      dad := OwnParent(cfg.dds);
    }

    /** clock_update_slave() */
    method UpdateSlave()
      requires Valid() && best.Some? && best.value < |ports| && SteadyBest(Ports()[best.value])
      modifies this`dad, this`stepsRemoved
      ensures Valid() && Value() == Assumed(cfg.dds, old(Value()), best.value, SLAVE)
    {
      PortBest(best.value);
      var fc := ports[best.value].best;
      stepsRemoved := 1 + fc.dataset.stepsRemoved;
      dad := SlaveParent(fc.dataset.sender, fc.messages[0]);
    }

    /** The body of the second loop. */
    method DecideNext(i: nat, freshBest: bool, initOk: bool)
      requires Valid() && i < |ports|
      requires best.Some? ==> best.value < |ports| && SteadyBest(Ports()[best.value])
      modifies this`dad, this`stepsRemoved, ports, Records()
      ensures Valid() && Value() == Decided(cfg, old(Value()), i, freshBest, initOk)
      ensures forall f | f in Records() :: f in old(Records())
    {
      var ps := TakeRole(i);
      Dispatch(i, EventOf(ps), freshBest, initOk);
    }

    method TakeRole(i: nat) returns (ps: PortState)
      requires Valid() && i < |ports|
      requires best.Some? ==> best.value < |ports| && SteadyBest(Ports()[best.value])
      modifies this`dad, this`stepsRemoved
      ensures Valid()
      ensures ps == Recommendation(cfg.dds, cfg.cmp, best, BestsOf(Ports()), i, Ports()[i].state)
      ensures Value() == Assumed(cfg.dds, old(Value()), i, ps)
    {
      ps := Recommend(i);
      Assume(i, ps);
    }

    method Assume(i: nat, ps: PortState)
      requires Valid() && i < |ports|
      requires ps == SLAVE ==> best == Some(i) && SteadyBest(Ports()[i])
      modifies this`dad, this`stepsRemoved
      ensures Valid() && Value() == Assumed(cfg.dds, old(Value()), i, ps)
    {
      if ps == GRAND_MASTER {
        UpdateGrandmaster();
      } else if ps == SLAVE {
        UpdateSlave();
      }
    }

    /** The state of the second loop after i ports. */
    ghost predicate Deciding(c: ClockValue, i: nat, freshBest: bool, initOks: seq<bool>)
      requires i <= |ports|
      reads this, ports, Records()
    {
      && |initOks| == |c.ports| == |cfg.ports| == |ports|
      && Valid() && Value() == DecidedUpTo(cfg, c, i, freshBest, initOks)
    }

    method DecideStep(ghost c: ClockValue, i: nat, freshBest: bool, initOks: seq<bool>)
      requires i < |ports| && Deciding(c, i, freshBest, initOks) && WellFormed(cfg) && DecisionReady(cfg, c)
      modifies this`dad, this`stepsRemoved, ports, Records()
      ensures Deciding(c, i + 1, freshBest, initOks)
      ensures forall f | f in Records() :: f in old(Records())
    {
      ReadyThroughout(cfg, c, i, freshBest, initOks);
      DecideNext(i, freshBest, initOks[i]);
    }

    /** The second loop. */
    method DecideAll(ghost c: ClockValue, freshBest: bool, initOks: seq<bool>)
      requires Deciding(c, 0, freshBest, initOks) && WellFormed(cfg) && DecisionReady(cfg, c)
      modifies this`dad, this`stepsRemoved, ports, Records()
      ensures Deciding(c, |ports|, freshBest, initOks)
      ensures forall f | f in Records() :: f in old(Records())
    {
      for i := 0 to |ports|
        invariant Deciding(c, i, freshBest, initOks)
        invariant forall f | f in Records() :: f in old(Records())
      {
        DecideStep(c, i, freshBest, initOks);
      }
    }

    /** Between the loops: note the best record and whether it names a new grandmaster. */
    method BestIdentity(b: Option<nat>) returns (id: ClockIdentity)
      requires Valid() && (b.Some? ==> b.value < |ports| && BestsOf(Ports())[b.value].Some?)
      ensures id == if b.Some? then BestsOf(Ports())[b.value].value.identity else cfg.dds.clockIdentity
    {
      hide Apart, Find;
      id := cfg.dds.clockIdentity;
      if b.Some? {
        PortBest(b.value);
        id := ports[b.value].best.dataset.identity;
      }
    }

    method SetBest(b: Option<nat>) returns (freshBest: bool)
      requires Valid() && b == ClockBest(cfg.cmp, BestsOf(Ports()))
      modifies this`best, this`bestId
      ensures Valid()
      ensures var bests := BestsOf(Ports());
              Value() == old(Value()).(best := b, bestId := if b.Some? then bests[b.value].value.identity else cfg.dds.clockIdentity)
      ensures freshBest == (bestId != old(bestId))
    {
      hide BestsOf, BestDataset, ClockBest, Apart;
      var id := BestIdentity(b);
      ghost var ps := Ports();
      freshBest := id != bestId;
      best := b;
      bestId := id;
      assert Ports() == ps;
    }

    /** The choice of a master. */
    method ChooseBest(now: int) returns (freshBest: bool)
      requires Valid()
      modifies this`best, this`bestId, ports, Records()
      ensures Valid() && Value() == Chosen(cfg, old(Value()), now)
      ensures freshBest == (bestId != old(bestId))
      ensures SameLists(old(Lists()))
    {
      hide WithBests, BestsOf, ClockBest;
      var b := Choose(now);
      freshBest := SetBest(b);
    }

    /** handle_state_decision_event(): now stands for the readings of the
        monotonic clock, initOks for the outcome of port_initialize(). */
    method HandleStateDecisionEvent(now: int, initOks: seq<bool>)
      requires Valid() && WellFormed(cfg) && ClockInv(cfg, Value()) && |initOks| == |ports|
      modifies this, ports, Records()
      ensures Valid() && Value() == Decision(cfg, old(Value()), now, initOks)
      ensures forall f | f in Records() :: f in old(Records())
    {
      ChosenIsReady(cfg, Value(), now);
      ChooseAndDecide(now, initOks);
    }

    method ChooseAndDecide(now: int, initOks: seq<bool>)
      requires Valid() && WellFormed(cfg) && |initOks| == |ports|
      requires DecisionReady(cfg, Chosen(cfg, Value(), now))
      modifies this, ports, Records()
      ensures Valid() && Value() == Decision(cfg, old(Value()), now, initOks)
      ensures forall f | f in Records() :: f in old(Records())
    {
      ghost var was := Records();
      var freshBest := ChooseBest(now);
      assert Records() <= was;
      DecideAll(Value(), freshBest, initOks);
    }

    /** An Announce arrives on port i. */
    method OnAnnounce(i: nat, m: Announce, now: int, initOk: bool)
      requires Valid() && i < |ports| && (Following(ports[i].state) ==> ports[i].best != null)
      modifies this, ports, Records()
      ensures Valid() && Value() == Apply(cfg, old(Value()), Receive(i, m, now, initOk))
      ensures fresh(Records() - old(Records()))
    {
      if m.source.clockIdentity == cfg.dds.clockIdentity {
        return;
      }
      ghost var p := WithAnnounce(Ports()[i], m, now);
      Deliver(i, m, now, initOk, p);
    }

    method Deliver(i: nat, m: Announce, now: int, initOk: bool, ghost p: (PortValue, bool))
      requires Valid() && i < |ports| && (Following(ports[i].state) ==> ports[i].best != null)
      requires p == WithAnnounce(Ports()[i], m, now)
      modifies ports, Records()
      ensures Valid() && fresh(Records() - old(Records()))
      ensures Ports() == old(Ports())[i := Dispatched(cfg.ports[i], p.0, if p.1 then STATE_DECISION_EVENT else NONE, false, initOk)]
    {
      hide Dispatched, WithAnnounce, Apart;
      ghost var v := Dispatched(cfg.ports[i], p.0, if p.1 then STATE_DECISION_EVENT else NONE, false, initOk);
      ports[i].Receive(m, now, initOk);
      assert ports[i].Value() == v;
      forall j | 0 <= j < |ports| && j != i ensures ports[j].Valid() && ports[j].Value() == old(ports[j].Value()) {
      }
      assert Ports() == old(Ports())[i := v];
    }

    /** The condition under which update_current_master() may use the port's
        best record without a check holds in every reachable state. */
    lemma FollowingHasBest(i: nat)
      requires Valid() && i < |ports| && ClockInv(cfg, Value())
      ensures Following(ports[i].state) ==> ports[i].best != null
    {
      assert Anchored(Ports()[i]);
    }

    /** The announce receipt timer of port i fires. */
    method OnAnnounceTimeout(i: nat, renewFails: bool, initOk: bool)
      requires Valid() && i < |ports|
      modifies this, ports, Records()
      ensures Valid() && Value() == Apply(cfg, old(Value()), AnnounceTimeout(i, renewFails, initOk))
      ensures forall f | f in Records() :: f in old(Records())
    {
      ghost var p := WithClearedBest(Ports()[i]);
      ClearAndDispatch(i, TimeoutEvent(cfg.ports[i], ports[i].state, renewFails), initOk, p);
    }

    method ClearAndDispatch(i: nat, event: Event, initOk: bool, ghost p: PortValue)
      requires Valid() && i < |ports| && p == WithClearedBest(Ports()[i])
      modifies ports, Records()
      ensures Valid()
      ensures Ports() == old(Ports())[i := Dispatched(cfg.ports[i], p, event, false, initOk)]
      ensures forall f | f in Records() :: f in old(Records())
    {
      hide Dispatched, WithClearedBest, Apart;
      ghost var v := Dispatched(cfg.ports[i], p, event, false, initOk);
      ports[i].Expire(event, initOk);
      assert ports[i].Value() == v;
      forall j | 0 <= j < |ports| && j != i ensures ports[j].Valid() && ports[j].Value() == old(ports[j].Value()) {
      }
      assert Ports() == old(Ports())[i := v];
      forall j, k | 0 <= j < |ports| && 0 <= k < |ports[j].foreignMasters|
        ensures ports[j].foreignMasters[k] in old(Records())
      {
        assert ports[j].foreignMasters[k] in old(ports[j].foreignMasters);
      }
    }

    /** Any other event of port i. */
    method OnPortEvent(i: nat, event: Event, initOk: bool)
      requires Valid() && i < |ports| && !IsRecommendation(event)
      modifies this, ports, Records()
      ensures Valid() && Value() == Apply(cfg, old(Value()), PortEvent(i, event, initOk))
      ensures forall f | f in Records() :: f in old(Records())
    {
      Dispatch(i, event, false, initOk);
    }

    // ---------------------------------------------------------------------
    // Runs
    // ---------------------------------------------------------------------

    /** One step; those that concern no port of the clock have no effect. */
    method Take(s: Step)
      requires Valid() && WellFormed(cfg) && ClockInv(cfg, Value())
      modifies this, ports, Records()
      ensures Valid() && Value() == Apply(cfg, old(Value()), s)
      ensures fresh(Records() - old(Records()))
    {
      hide WithAnnounce, Dispatched, WithClearedBest, Decision, PortInv, SingleSlave, Anchored, WellFormed, Apart;
      match s
      case Receive(i, m, now, initOk) =>
        if i < |ports| {
          FollowingHasBest(i);
          OnAnnounce(i, m, now, initOk);
        }
      case AnnounceTimeout(i, renewFails, initOk) =>
        if i < |ports| {
          OnAnnounceTimeout(i, renewFails, initOk);
        }
      case PortEvent(i, event, initOk) =>
        if i < |ports| && !IsRecommendation(event) {
          OnPortEvent(i, event, initOk);
        }
      case Decide(now, initOks) =>
        if |initOks| == |ports| {
          HandleStateDecisionEvent(now, initOks);
        }
    }

    /** A clock that takes steps is, object by object, in the state that the step
        machine is in; so every port that follows a master has a record of it,
        which is one of its own. */
    method TakeAll(steps: seq<Step>)
      requires Valid() && WellFormed(cfg) && ClockInv(cfg, Value())
      modifies this, ports, Records()
      ensures Valid() && Value() == RunFrom(cfg, old(Value()), steps)
      ensures forall i | 0 <= i < |ports| && Following(ports[i].state) :: ports[i].best != null && ports[i].best in ports[i].foreignMasters
    {
      hide Apply, ClockInv;
      ghost var start := Value();
      assert steps[..0] == [];
      for k := 0 to |steps|
        invariant Valid() && |start.ports| == |cfg.ports| && Value() == RunFrom(cfg, start, steps[..k]) && ClockInv(cfg, Value())
        invariant fresh(Records() - old(Records()))
      {
        Take(steps[k]);
        assert steps[..k + 1][..k] == steps[..k];
        RunFromKeepsInv(cfg, start, steps[..k + 1]);
      }
      assert steps[..|steps|] == steps;
      forall i: nat | i < |ports| ensures Following(ports[i].state) ==> ports[i].best != null {
        FollowingHasBest(i);
      }
    }
  }
}
