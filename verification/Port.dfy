/** One port's share of the best master clock algorithm (port.c). */
module PortBmc {
  import opened Octets
  import opened DataSets
  import opened Bmc
  import opened Fsm
  import opened ForeignMasters

  /** machine is the state machine the port was opened with. */
  datatype PortConfig = PortConfig(
    identity: PortIdentity, localPriority: U8, masterOnly: bool, slaveOnly: bool,
    cmp: Comparison, clearFaultAsap: bool, machine: (PortState, Event, bool) -> PortState)

  /** The value of a port: best names a record by its sender. */
  datatype PortValue = PortValue(state: PortState, records: seq<Record>, best: Option<PortIdentity>)

  /** announce_to_dataset() */
  function ToDataset(m: Announce, cfg: PortConfig): Dataset {
    Dataset(m.grandmasterPriority1, m.grandmasterIdentity, m.grandmasterClockQuality,
            m.grandmasterPriority2, cfg.localPriority, m.stepsRemoved, m.source, cfg.identity)
  }

  /** The first record of a sender, or the length of the list. */
  function Find(rs: seq<Record>, sender: PortIdentity): (i: nat)
    ensures i <= |rs|
    ensures i < |rs| ==> rs[i].sender == sender
    ensures forall k | 0 <= k < i :: rs[k].sender != sender
  {
    if rs == [] || rs[0].sender == sender then 0 else 1 + Find(rs[1..], sender)
  }

  /** One more Announce of a known sender. */
  function Stored(r: Record, m: Announce, now: int): Record {
    r.(messages := [m] + Pruned(r.messages, now), received := r.received + 1)
  }

  function NewsTo(r: Record, m: Announce, now: int): bool {
    var ms := Pruned(r.messages, now);
    ms != [] && Differs(m, ms[0])
  }

  /** add_foreign_master(): the new list and whether the decision is due. */
  function WithForeignMaster(rs: seq<Record>, m: Announce, now: int): (seq<Record>, bool) {
    var i := Find(rs, m.source);
    if i == |rs| then ([Fresh(m)] + rs, false)
    else
      (rs[i := Stored(rs[i], m, now)],
       |Pruned(rs[i].messages, now)| == FOREIGN_MASTER_THRESHOLD - 1 || NewsTo(rs[i], m, now))
  }

  /** update_current_master() */
  function WithCurrentMaster(p: PortValue, m: Announce, now: int): (PortValue, bool) {
    var i := Find(p.records, m.source);
    if p.best != Some(m.source) || i == |p.records| then
      var (rs, news) := WithForeignMaster(p.records, m, now);
      (p.(records := rs), news)
    else
      (p.(records := p.records[i := Stored(p.records[i], m, now)]), NewsTo(p.records[i], m, now))
  }

  predicate Following(s: PortState) {
    s == PASSIVE || s == UNCALIBRATED || s == SLAVE
  }

  /** process_announce() */
  function WithAnnounce(p: PortValue, m: Announce, now: int): (PortValue, bool) {
    if m.stepsRemoved >= 255 || !Enabled(p.state) then (p, false)
    else if Following(p.state) then WithCurrentMaster(p, m, now)
    else
      var (rs, news) := WithForeignMaster(p.records, m, now);
      (p.(records := rs), news)
  }

  // ---------------------------------------------------------------------
  // port_compute_best()
  // ---------------------------------------------------------------------

  /** A record takes part in the scan with the data set of its newest Announce. */
  function Refreshed(cfg: PortConfig, r: Record, now: int): Record {
    if r.messages == [] then r
    else r.(dataset := ToDataset(r.messages[0], cfg), messages := Pruned(r.messages, now))
  }

  predicate Qualified(r: Record, now: int) {
    |Pruned(r.messages, now)| >= FOREIGN_MASTER_THRESHOLD
  }

  predicate Beats(cfg: PortConfig, r: Record, best: Option<Dataset>) {
    best.None? || cfg.cmp(r.dataset, best.value) > 0
  }

  /** What the scan leaves of a record, given the best so far. */
  function Scanned(cfg: PortConfig, r: Record, best: Option<Dataset>, now: int): Record {
    var r1 := Refreshed(cfg, r, now);
    if Qualified(r, now) && !Beats(cfg, r1, best) then r1.(messages := []) else r1
  }

  datatype ScanResult = ScanResult(records: seq<Record>, best: Option<nat>)
  {
    function BestDataset(): Option<Dataset> {
      if best.Some? && best.value < |records| then Some(records[best.value].dataset) else None
    }
  }

  /** The scan over the list, which clears the records that lose. */
  function Scan(cfg: PortConfig, rs: seq<Record>, now: int): (s: ScanResult)
    ensures |s.records| == |rs|
    ensures s.best.Some? ==> s.best.value < |rs|
  {
    if rs == [] then ScanResult([], None)
    else
      var n := |rs| - 1;
      var s := Scan(cfg, rs[..n], now);
      var r := Scanned(cfg, rs[n], s.BestDataset(), now);
      ScanResult(s.records + [r],
                 if Qualified(rs[n], now) && Beats(cfg, r, s.BestDataset()) then Some(n) else s.best)
  }

  /** The scan of one more record of a list. */
  lemma NextInList(cfg: PortConfig, rs: seq<Record>, i: nat, now: int)
    requires i < |rs|
    ensures var s, t := Scan(cfg, rs[..i], now), Scan(cfg, rs[..i + 1], now);
            var r := Scanned(cfg, rs[i], s.BestDataset(), now);
            && (s.records + rs[i..])[i := r] == t.records + rs[i + 1..]
            && t.records == s.records + [r]
            && t.best == if Qualified(rs[i], now) && Beats(cfg, r, s.BestDataset()) then Some(i) else s.best
  {
    hide Scanned, Qualified, Beats;
    assert rs[..i + 1][..i] == rs[..i] && rs[..i + 1][i] == rs[i];
  }

  function AfterScan(cfg: PortConfig, state: PortState, rs: seq<Record>, now: int): PortValue {
    var s := Scan(cfg, rs, now);
    PortValue(state, s.records, if s.best.Some? then Some(s.records[s.best.value].sender) else None)
  }

  function WithBest(cfg: PortConfig, p: PortValue, now: int): PortValue {
    if cfg.masterOnly then p.(best := None) else AfterScan(cfg, p.state, p.records, now)
  }

  /** port_best_foreign() */
  function BestDataset(p: PortValue): Option<Dataset> {
    if p.best.None? then None
    else
      var i := Find(p.records, p.best.value);
      if i < |p.records| then Some(p.records[i].dataset) else None
  }

  // ---------------------------------------------------------------------
  // Dispatch
  // ---------------------------------------------------------------------

  /** port_open() chooses the machine. */
  ghost predicate HasMachine(cfg: PortConfig) {
    cfg.machine == if cfg.slaveOnly then PtpSlaveFsm else PtpFsm
  }

  /** port_disable() as far as the foreign masters are concerned. */
  function Disabled(p: PortValue): PortValue {
    p.(records := [], best := None)
  }

  /** The state that the machine and an immediate fault clearing ask for. */
  function NextState(cfg: PortConfig, state: PortState, event: Event, mdiff: bool): PortState {
    var next := cfg.machine(state, event, mdiff);
    if next == FAULTY && cfg.clearFaultAsap then cfg.machine(next, FAULT_CLEARED, false) else next
  }

  /** port_initialize() leads straight on. */
  function Initialized(cfg: PortConfig, initOk: bool): PortState {
    cfg.machine(INITIALIZING, if initOk then INIT_COMPLETE else FAULT_DETECTED, false)
  }

  function Settled(cfg: PortConfig, p: PortValue, next: PortState, initOk: bool): PortValue {
    var p1 := if next == INITIALIZING && Enabled(p.state) then Disabled(p) else p;
    var next1 := if next == INITIALIZING then Initialized(cfg, initOk) else next;
    if next1 != p.state && (next1 == FAULTY || next1 == DISABLED) then Disabled(p1).(state := next1)
    else p1.(state := next1)
  }

  /** port_dispatch(): port_state_update() and the side effects of a change.
      initOk says whether port_initialize() succeeds when it is called. */
  function Dispatched(cfg: PortConfig, p: PortValue, event: Event, mdiff: bool, initOk: bool): PortValue {
    Settled(cfg, p, NextState(cfg, p.state, event, mdiff), initOk)
  }

  /** What the announce receipt timer does to the current master's record. */
  function WithClearedBest(p: PortValue): PortValue {
    if p.best.None? then p
    else
      var i := Find(p.records, p.best.value);
      if i == |p.records| then p else p.(records := p.records[i := p.records[i].(messages := [])])
  }

  // ---------------------------------------------------------------------
  // A port that changes in place
  // ---------------------------------------------------------------------

  /** A foreign clock record, changed in place. */
  class ForeignClock {
    const sender: PortIdentity
    const port: Port
    var messages: seq<Announce>
    var nMessages: nat
    var dataset: Dataset
    ghost var received: nat

    ghost predicate Valid()
      reads this
    {
      nMessages == |messages|
    }

    ghost function Value(): Record
      reads this
    {
      Record(sender, messages, dataset, received)
    }

    /** A new record; the Announce that caused it is not stored. */
    constructor (p: Port, m: Announce)
      ensures Valid() && port == p && Value() == Fresh(m)
    {
      port, sender, messages, nMessages := p, m.source, [], 0;
      dataset, received := Blank(m.source), 1;
    }

    method Clear()
      requires Valid()
      modifies this
      ensures Valid() && Value() == old(Value()).(messages := [])
    {
      while nMessages > 0
        invariant Valid()
        invariant Value() == old(Value()).(messages := messages)
      {
        messages := messages[..|messages| - 1];
        nMessages := nMessages - 1;
      }
    }

    method Prune(now: int)
      requires Valid()
      modifies this
      ensures Valid() && Value() == old(Value()).(messages := Pruned(old(messages), now))
    {
      ghost var ms := messages;
      while nMessages > FOREIGN_MASTER_THRESHOLD
        invariant Valid() && Value() == old(Value()).(messages := messages)
        invariant messages <= ms && (|messages| >= FOREIGN_MASTER_THRESHOLD || messages == ms)
      {
        messages := messages[..|messages| - 1];
        nMessages := nMessages - 1;
      }
      assert |ms| > FOREIGN_MASTER_THRESHOLD ==> messages == ms[..FOREIGN_MASTER_THRESHOLD];
      assert Pruned(messages, now) == Pruned(ms, now);
      while messages != []
        invariant Valid() && Value() == old(Value()).(messages := messages)
        invariant |messages| <= FOREIGN_MASTER_THRESHOLD && Pruned(messages, now) == Pruned(ms, now)
        decreases |messages|
      {
        if Current(messages[|messages| - 1], now) {
          break;
        }
        messages := messages[..|messages| - 1];
        nMessages := nMessages - 1;
      }
    }

    /** Store an Announce at the head of the list. */
    method Push(m: Announce)
      requires Valid()
      modifies this
      ensures Valid()
      ensures Value() == old(Value()).(messages := [m] + old(messages), received := old(received) + 1)
    {
      messages := [m] + messages;
      nMessages := nMessages + 1;
      received := received + 1;
    }
  }

  /** Records of different senders. */
  ghost predicate Apart(fms: seq<ForeignClock>) {
    forall i, j | 0 <= i < j < |fms| :: fms[i] != fms[j] && fms[i].sender != fms[j].sender
  }

  lemma OneMoreApart(fc: ForeignClock, fms: seq<ForeignClock>)
    requires Apart(fms) && forall k | 0 <= k < |fms| :: fms[k] != fc && fms[k].sender != fc.sender
    ensures Apart([fc] + fms)
  {
    var all := [fc] + fms;
    forall i, j | 0 <= i < j < |all| ensures all[i] != all[j] && all[i].sender != all[j].sender {
      assert all[j] == fms[j - 1];
      if i > 0 {
        assert all[i] == fms[i - 1];
      }
    }
  }

  class Port {
    const cfg: PortConfig
    var state: PortState
    var foreignMasters: seq<ForeignClock>
    var best: ForeignClock?

    ghost predicate Valid()
      reads this, foreignMasters
    {
      && Apart(foreignMasters)
      && (forall i | 0 <= i < |foreignMasters| :: foreignMasters[i].Valid() && foreignMasters[i].port == this)
      && (best != null ==> best in foreignMasters)
    }

    ghost function Records(): (rs: seq<Record>)
      reads this, foreignMasters
      ensures |rs| == |foreignMasters|
    {
      seq(|foreignMasters|, i requires 0 <= i < |foreignMasters| reads this, foreignMasters => foreignMasters[i].Value())
    }

    ghost function Value(): PortValue
      reads this, foreignMasters
    {
      PortValue(state, Records(), if best == null then None else Some(best.sender))
    }

    constructor (cfg: PortConfig)
      ensures Valid() && this.cfg == cfg
      ensures Value() == PortValue(INITIALIZING, [], None)
    {
      this.cfg, state, foreignMasters, best := cfg, INITIALIZING, [], null;
    }

    method FindForeignMaster(source: PortIdentity) returns (i: nat)
      requires Valid()
      ensures i == Find(Records(), source)
    {
      i := 0;
      while i < |foreignMasters| && foreignMasters[i].sender != source
        invariant i <= |foreignMasters|
        invariant Find(Records(), source) == i + Find(Records()[i..], source)
      {
        i := i + 1;
      }
    }

    method AddForeignMaster(m: Announce, now: int) returns (news: bool)
      requires Valid()
      modifies this`foreignMasters, foreignMasters
      ensures Valid() && best == old(best)
      ensures fresh(set f | f in foreignMasters && f !in old(foreignMasters))
      ensures (Value(), news) ==
              (old(Value()).(records := WithForeignMaster(old(Records()), m, now).0),
               WithForeignMaster(old(Records()), m, now).1)
    {
      var i := FindForeignMaster(m.source);
      if i == |foreignMasters| {
        Insert(m);
        return false;
      }
      var brokeThreshold;
      brokeThreshold, news := Store(i, m, now);
      news := brokeThreshold || news;
    }

    /** Put a new record at the head of the list. */
    method Insert(m: Announce)
      requires Valid() && Find(Records(), m.source) == |foreignMasters|
      modifies this`foreignMasters
      ensures Valid() && Records() == [Fresh(m)] + old(Records())
      ensures fresh(set f | f in foreignMasters && f !in old(foreignMasters))
    {
      hide Find;
      ghost var fms := foreignMasters;
      assert forall k | 0 <= k < |fms| :: Records()[k].sender == fms[k].sender != m.source;
      var fc := new ForeignClock(this, m);
      OneMoreApart(fc, fms);
      hide Apart;
      foreignMasters := [fc] + foreignMasters;
      assert forall k | 1 <= k < |foreignMasters| :: foreignMasters[k] == fms[k - 1];
    }

    /** Prune record i and store an Announce in it. */
    method Store(i: nat, m: Announce, now: int) returns (brokeThreshold: bool, diff: bool)
      requires Valid() && i < |foreignMasters|
      modifies foreignMasters[i]
      ensures Valid() && best == old(best)
      ensures Records() == old(Records())[i := Stored(old(Records()[i]), m, now)]
      ensures brokeThreshold == (|Pruned(old(Records()[i].messages), now)| == FOREIGN_MASTER_THRESHOLD - 1)
      ensures diff == NewsTo(old(Records()[i]), m, now)
    {
      var fc := foreignMasters[i];
      fc.Prune(now);
      brokeThreshold := fc.nMessages == FOREIGN_MASTER_THRESHOLD - 1;
      fc.Push(m);
      diff := fc.nMessages > 1 && Differs(m, fc.messages[1]);
    }

    method UpdateCurrentMaster(m: Announce, now: int) returns (news: bool)
      requires Valid() && best != null
      modifies this`foreignMasters, foreignMasters
      ensures Valid() && best == old(best)
      ensures fresh(set f | f in foreignMasters && f !in old(foreignMasters))
      ensures (Value(), news) == WithCurrentMaster(old(Value()), m, now)
    {
      if best.sender != m.source {
        news := AddForeignMaster(m, now);
        return;
      }
      ghost var k :| 0 <= k < |foreignMasters| && foreignMasters[k] == best;
      assert Records()[k].sender == m.source;
      var i := FindForeignMaster(m.source);
      var brokeThreshold;
      brokeThreshold, news := Store(i, m, now);
    }

    method ProcessAnnounce(m: Announce, now: int) returns (news: bool)
      requires Valid() && (Following(state) ==> best != null)
      modifies this`foreignMasters, foreignMasters
      ensures Valid() && best == old(best)
      ensures fresh(set f | f in foreignMasters && f !in old(foreignMasters))
      ensures (Value(), news) == WithAnnounce(old(Value()), m, now)
    {
      if m.stepsRemoved >= 255 {
        return false;
      }
      if !Enabled(state) {
        news := false;
      } else if Following(state) {
        news := UpdateCurrentMaster(m, now);
      } else {
        news := AddForeignMaster(m, now);
      }
    }

    /** port_compute_best() */
    method ComputeBest(now: int)
      requires Valid()
      modifies this`best, foreignMasters
      ensures Valid() && Value() == WithBest(cfg, old(Value()), now)
    {
      best := null;
      assert Records() == old(Records());
      if !cfg.masterOnly {
        FindBest(Records(), now);
      }
    }

    method FindBest(ghost rs: seq<Record>, now: int)
      requires Valid() && best == null && rs == Records()
      modifies this`best, foreignMasters
      ensures Valid() && Value() == AfterScan(cfg, state, rs, now)
    {
      ScanStart(rs, now);
      ScanAll(rs, now);
      ScanDone(rs, now);
    }

    method ScanAll(ghost rs: seq<Record>, now: int)
      requires Scanning(rs, 0, now)
      modifies this`best, foreignMasters
      ensures Scanning(rs, |rs|, now)
    {
      for i := 0 to |foreignMasters|
        invariant Scanning(rs, i, now)
      {
        ScanNext(rs, i, now);
      }
    }

    lemma ScanStart(rs: seq<Record>, now: int)
      requires Valid() && best == null && rs == Records()
      ensures Scanning(rs, 0, now)
    {
      assert rs[..0] == [] && rs[0..] == rs;
    }

    lemma ScanDone(rs: seq<Record>, now: int)
      requires Scanning(rs, |rs|, now)
      ensures Value() == AfterScan(cfg, state, rs, now)
    {
      assert rs[..|rs|] == rs && rs[|rs|..] == [];
      var s := Scan(cfg, rs, now);
      if s.best.Some? {
        assert Records()[s.best.value] == s.records[s.best.value];
      }
    }

    /** The body of the scan. */
    method ScanNext(ghost rs: seq<Record>, i: nat, now: int)
      requires i < |foreignMasters| == |rs| && Scanning(rs, i, now)
      modifies this`best, foreignMasters
      ensures Scanning(rs, i + 1, now)
    {
      ghost var before := Records();
      BestInScan(rs, i, now);
      var wins := ScanOne(i, now);
      if wins {
        best := foreignMasters[i];
      }
      NextScan(rs, before, i, now);
      assert Scanning(rs, i + 1, now);
    }

    /** The state of the scan after i records: the model's scan of those, and
        the rest as they were. */
    ghost predicate Scanning(rs: seq<Record>, i: nat, now: int)
      requires i <= |rs|
      reads this, foreignMasters
    {
      var s := Scan(cfg, rs[..i], now);
      && Valid() && |foreignMasters| == |rs|
      && Records() == s.records + rs[i..]
      && best == if s.best.Some? then foreignMasters[s.best.value] else null
    }

    lemma BestInScan(rs: seq<Record>, i: nat, now: int)
      requires i < |rs| && Scanning(rs, i, now)
      ensures best != foreignMasters[i] && Records()[i] == rs[i]
      ensures (if best == null then None else Some(best.dataset)) == Scan(cfg, rs[..i], now).BestDataset()
    {
      var s := Scan(cfg, rs[..i], now);
      if s.best.Some? {
        assert Records()[s.best.value] == s.records[s.best.value];
      }
    }

    lemma NextScan(rs: seq<Record>, before: seq<Record>, i: nat, now: int)
      requires i < |rs| == |before| == |foreignMasters| && Valid()
      requires var s := Scan(cfg, rs[..i], now);
               && before == s.records + rs[i..]
               && Records() == before[i := Scanned(cfg, rs[i], s.BestDataset(), now)]
               && best == if Qualified(rs[i], now) && Beats(cfg, Records()[i], s.BestDataset()) then foreignMasters[i]
                          else if s.best.Some? then foreignMasters[s.best.value] else null
      ensures Scanning(rs, i + 1, now)
    {
      NextInList(cfg, rs, i, now);
      hide Scan, Scanned, Qualified, Beats, Apart;
    }

    /** One turn of the scan: whether record i becomes the best. */
    method ScanOne(i: nat, now: int) returns (wins: bool)
      requires Valid() && i < |foreignMasters| && best != foreignMasters[i]
      modifies foreignMasters[i]
      ensures Valid()
      ensures Records() == old(Records())[i :=
                Scanned(cfg, old(Records()[i]), old(if best == null then None else Some(best.dataset)), now)]
      ensures wins == (Qualified(old(Records()[i]), now)
                       && Beats(cfg, Records()[i], old(if best == null then None else Some(best.dataset))))
    {
      var fc := foreignMasters[i];
      if fc.messages == [] {
        return false;
      }
      fc.dataset := ToDataset(fc.messages[0], cfg);
      fc.Prune(now);
      if fc.nMessages < FOREIGN_MASTER_THRESHOLD {
        return false;
      }
      wins := best == null || cfg.cmp(fc.dataset, best.dataset) > 0;
      if !wins {
        fc.Clear();
      }
    }

    method FreeForeignMasters()
      requires Valid() && best == null
      modifies this`foreignMasters, foreignMasters
      ensures Valid() && foreignMasters == []
    {
      while foreignMasters != []
        invariant Valid() && best == null
        invariant forall f | f in foreignMasters :: f in old(foreignMasters)
        decreases |foreignMasters|
      {
        var fc := foreignMasters[0];
        assert fc in old(foreignMasters);
        foreignMasters := foreignMasters[1..];
        fc.Clear();
      }
    }

    /** port_disable() */
    method Disable()
      requires Valid()
      modifies this`best, this`foreignMasters, foreignMasters
      ensures Valid() && Value() == Disabled(old(Value())) && foreignMasters == []
    {
      best := null;
      FreeForeignMasters();
    }

    /** The first part of port_state_update(). */
    method Next(event: Event, mdiff: bool) returns (next: PortState)
      ensures next == NextState(cfg, state, event, mdiff)
    {
      next := cfg.machine(state, event, mdiff);
      if next == FAULTY && cfg.clearFaultAsap {
        next := cfg.machine(next, FAULT_CLEARED, false);
      }
    }

    /** The second part of port_state_update(), and the part of the transition
        functions that concerns the foreign masters. */
    method Settle(next: PortState, initOk: bool)
      requires Valid()
      modifies this, foreignMasters
      ensures Valid() && Value() == Settled(cfg, old(Value()), next, initOk)
      ensures forall f | f in foreignMasters :: f in old(foreignMasters)
    {
      var next1 := next;
      if next == INITIALIZING {
        if Enabled(state) {
          Disable();
        }
        next1 := Initialized(cfg, initOk);
      }
      var changed := next1 != state;
      state := next1;
      if changed && (state == FAULTY || state == DISABLED) {
        Disable();
      }
    }

    /** port_dispatch() */
    method Dispatch(event: Event, mdiff: bool, initOk: bool)
      requires Valid()
      modifies this, foreignMasters
      ensures Valid() && Value() == Dispatched(cfg, old(Value()), event, mdiff, initOk)
      ensures forall f | f in foreignMasters :: f in old(foreignMasters)
    {
      var next := Next(event, mdiff);
      Settle(next, initOk);
    }

    /** An Announce arrives, and the machine learns whether a decision is due. */
    method Receive(m: Announce, now: int, initOk: bool)
      requires Valid() && (Following(state) ==> best != null)
      modifies this, foreignMasters
      ensures Valid() && fresh(set f | f in foreignMasters && f !in old(foreignMasters))
      ensures var p := WithAnnounce(old(Value()), m, now);
              Value() == Dispatched(cfg, p.0, if p.1 then STATE_DECISION_EVENT else NONE, false, initOk)
    {
      hide WithAnnounce, Dispatched, Apart;
      var news := ProcessAnnounce(m, now);
      Dispatch(if news then STATE_DECISION_EVENT else NONE, false, initOk);
    }

    /** The announce receipt timer clears the current master's record. */
    method ClearBest()
      requires Valid()
      modifies foreignMasters
      ensures Valid() && Value() == WithClearedBest(old(Value()))
    {
      if best != null {
        ghost var k :| 0 <= k < |foreignMasters| && foreignMasters[k] == best;
        assert Records()[k].sender == best.sender;
        best.Clear();
      }
    }

    /** The announce receipt timer expires. */
    method Expire(event: Event, initOk: bool)
      requires Valid()
      modifies this, foreignMasters
      ensures Valid() && Value() == Dispatched(cfg, WithClearedBest(old(Value())), event, false, initOk)
      ensures forall f | f in foreignMasters :: f in old(foreignMasters)
    {
      hide WithClearedBest, Dispatched, Apart;
      ClearBest();
      Dispatch(event, false, initOk);
    }
  }
}
