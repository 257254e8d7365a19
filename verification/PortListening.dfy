/** What a port knows after it has listened: any port, whatever it heard before. */
module PortListening {
  import opened Octets
  import opened DataSets
  import opened Bmc
  import opened Fsm
  import opened ForeignMasters
  import opened PortBmc
  import opened PortTheory
  import opened ClockBmc
  import opened ClockTheory

  /** A port of a boundary clock. */
  ghost predicate Ordinary(cfg: PortConfig) {
    HasMachine(cfg) && !cfg.slaveOnly && !cfg.masterOnly && cfg.cmp == Dscmp(IEEE1588)
  }

  // ---------------------------------------------------------------------
  // Steps of one port
  // ---------------------------------------------------------------------

  /** The effect of a step on the port it is about. */
  function PortApply(cfg: PortConfig, p: PortValue, s: Step): PortValue
  {
    match s
    case Receive(_, m, now, initOk) =>
      if m.source.clockIdentity == cfg.identity.clockIdentity then p
      else
        var (q, news) := WithAnnounce(p, m, now);
        Dispatched(cfg, q, if news then STATE_DECISION_EVENT else NONE, false, initOk)
    case AnnounceTimeout(_, renewFails, initOk) =>
      var q := WithClearedBest(p);
      Dispatched(cfg, q, TimeoutEvent(cfg, q.state, renewFails), false, initOk)
    case PortEvent(_, event, initOk) =>
      if IsRecommendation(event) then p else Dispatched(cfg, p, event, false, initOk)
    case Decide(_, _) => p
  }

  function PortRun(cfg: PortConfig, p: PortValue, steps: seq<Step>): PortValue
  {
    if steps == [] then p else PortApply(cfg, PortRun(cfg, p, steps[..|steps| - 1]), steps[|steps| - 1])
  }

  predicate About(s: Step, i: nat) {
    !s.Decide? && s.port == i
  }

  lemma ApplyIsLocal(cfg: ClockConfig, c: ClockValue, i: nat, s: Step)
    requires WellFormed(cfg) && i < |c.ports| == |cfg.ports| && About(s, i)
    ensures Apply(cfg, c, s) == c.(ports := c.ports[i := PortApply(cfg.ports[i], c.ports[i], s)])
  {
    hide WithAnnounce, WithClearedBest, Dispatched;
    assert c.ports == c.ports[i := c.ports[i]];
  }

  lemma {:induction false} RunIsLocal(cfg: ClockConfig, c: ClockValue, i: nat, steps: seq<Step>)
    requires WellFormed(cfg) && i < |c.ports| == |cfg.ports| && forall s | s in steps :: About(s, i)
    ensures RunFrom(cfg, c, steps) == c.(ports := c.ports[i := PortRun(cfg.ports[i], c.ports[i], steps)])
  {
    hide Apply, PortApply, WellFormed;
    if steps == [] {
      assert c.ports == c.ports[i := c.ports[i]];
    } else {
      var before := steps[..|steps| - 1];
      RunIsLocal(cfg, c, i, before);
      ApplyIsLocal(cfg, RunFrom(cfg, c, before), i, steps[|steps| - 1]);
    }
  }

  lemma {:induction false} RunInParts(cfg: ClockConfig, c: ClockValue, s: seq<Step>, t: seq<Step>)
    requires |c.ports| == |cfg.ports|
    ensures RunFrom(cfg, c, s + t) == RunFrom(cfg, RunFrom(cfg, c, s), t)
  {
    hide Apply;
    if t == [] {
      assert s + t == s;
    } else {
      assert (s + t)[..|s + t| - 1] == s + t[..|t| - 1];
      RunInParts(cfg, c, s, t[..|t| - 1]);
    }
  }

  // ---------------------------------------------------------------------
  // Three Announces
  // ---------------------------------------------------------------------

  lemma StateKept(cfg: PortConfig, p: PortValue, news: bool, initOk: bool)
    requires Ordinary(cfg) && Enabled(p.state)
    ensures Dispatched(cfg, p, if news then STATE_DECISION_EVENT else NONE, false, initOk) == p
  {
  }

  /** An Announce is stored with its sender's record, whether that is the best one
      or not. */
  lemma AnnounceIsStored(p: PortValue, m: Announce, now: int)
    requires Enabled(p.state) && m.stepsRemoved < 255
    ensures WithAnnounce(p, m, now).0 == p.(records := WithForeignMaster(p.records, m, now).0)
  {
    hide Stored, NewsTo, Pruned;
  }

  lemma ReceiveStores(cfg: PortConfig, p: PortValue, m: Announce, now: int, i: nat, initOk: bool)
    requires Ordinary(cfg) && Enabled(p.state) && m.stepsRemoved < 255
    requires m.source.clockIdentity != cfg.identity.clockIdentity
    ensures PortApply(cfg, p, Receive(i, m, now, initOk)) == p.(records := WithForeignMaster(p.records, m, now).0)
  {
    hide WithAnnounce, Dispatched, WithForeignMaster;
    AnnounceIsStored(p, m, now);
    StateKept(cfg, p.(records := WithForeignMaster(p.records, m, now).0), WithAnnounce(p, m, now).1, initOk);
  }

  /** Two lists hold the same records, but for those of one sender. */
  ghost predicate SameBut(rs: seq<Record>, qs: seq<Record>, sender: Option<PortIdentity>) {
    forall r: Record {:trigger r in rs} {:trigger r in qs} | Some(r.sender) != sender :: r in rs <==> r in qs
  }

  lemma OthersKept(rs: seq<Record>, m: Announce, now: int)
    ensures SameBut(rs, WithForeignMaster(rs, m, now).0, Some(m.source))
  {
    var i, qs := Find(rs, m.source), WithForeignMaster(rs, m, now).0;
    if i < |rs| {
      forall r: Record | r.sender != m.source ensures r in rs <==> r in qs {
        if r in rs {
          var k :| 0 <= k < |rs| && rs[k] == r;
          assert qs[k] == r;
        }
      }
    }
  }

  /** The k newest messages of its sender's record, but two at most, equal m. */
  predicate Tells(r: Record, m: Announce, k: nat) {
    r.sender == m.source && k <= |r.messages| && forall j | 0 <= j < k :: r.messages[j] == m
  }

  /** A port that has received m k + 1 times since it was p. */
  ghost predicate Told(p: PortValue, q: PortValue, m: Announce, k: nat) {
    && q.state == p.state && q.best == p.best
    && SameBut(p.records, q.records, Some(m.source))
    && exists r | r in q.records :: Tells(r, m, k)
  }

  lemma StoredTells(r: Record, m: Announce, k: nat, now: int)
    requires Tells(r, m, k) && k < FOREIGN_MASTER_THRESHOLD && Current(m, now)
    ensures Tells(Stored(r, m, now), m, k + 1)
  {
    var ms := Pruned(r.messages, now);
    assert k > 0 ==> Current(r.messages[k - 1], now);
    assert forall j | 0 <= j < |ms| :: ms[j] == r.messages[j];
  }

  lemma FirstTold(cfg: PortConfig, p: PortValue, m: Announce, now: int)
    ensures Told(p, p.(records := WithForeignMaster(p.records, m, now).0), m, 0)
  {
    OthersKept(p.records, m, now);
    var i, qs := Find(p.records, m.source), WithForeignMaster(p.records, m, now).0;
    assert Tells(if i < |p.records| then qs[i] else qs[0], m, 0);
  }

  lemma NextTold(cfg: PortConfig, p: PortValue, q: PortValue, m: Announce, k: nat, now: int)
    requires Told(p, q, m, k) && k < FOREIGN_MASTER_THRESHOLD && Current(m, now) && Distinct(q.records)
    ensures Told(p, q.(records := WithForeignMaster(q.records, m, now).0), m, k + 1)
  {
    hide Stored, Tells;
    OthersKept(q.records, m, now);
    var r :| r in q.records && Tells(r, m, k);
    var i :| 0 <= i < |q.records| && q.records[i] == r;
    TellsSender(r, m, k);
    FindDistinct(q.records, i);
    StoredTells(r, m, k, now);
    assert WithForeignMaster(q.records, m, now).0[i] == Stored(r, m, now);
  }

  lemma TellsSender(r: Record, m: Announce, k: nat)
    requires Tells(r, m, k)
    ensures r.sender == m.source
  {
  }

  // ---------------------------------------------------------------------
  // What the scan then finds
  // ---------------------------------------------------------------------

  /** A qualified record that every other one loses to wins the scan. */
  lemma {:induction false} ScanPrefers(cfg: PortConfig, rs: seq<Record>, now: int, k: nat)
    requires cfg.cmp == Dscmp(IEEE1588) && k < |rs| && Qualified(rs[k], now)
    requires forall j | 0 <= j < |rs| && j != k && Qualified(rs[j], now) :: cfg.cmp(Candidate(cfg, rs[k]), Candidate(cfg, rs[j])) > 0
    ensures Scan(cfg, rs, now).best == Some(k)
  {
    hide Scan, Candidate, Qualified;
    var n := |rs| - 1;
    var b := Scan(cfg, rs[..n], now).best;
    ScanStep(cfg, rs, now);
    ScanWinner(cfg, rs[..n], now);
    if k < n {
      assert rs[..n][k] == rs[k];
      ScanPrefers(cfg, rs[..n], now, k);
      CompareAntisymmetric(IEEE1588, Some(Candidate(cfg, rs[k])), Some(Candidate(cfg, rs[n])));
    } else if b.Some? {
      assert rs[..n][b.value] == rs[b.value];
    }
  }

  /** The best data set of a port is that of the record the scan chose. */
  lemma BestIsChosen(cfg: PortConfig, q: PortValue, now: int)
    requires PortInv(cfg, q) && !cfg.masterOnly
    ensures var s := Scan(cfg, q.records, now);
            BestDataset(WithBest(cfg, q, now)) == if s.best.Some? then Some(Candidate(cfg, q.records[s.best.value])) else None
  {
    hide RecordInv, Qualified, Candidate;
    var s := Scan(cfg, q.records, now);
    ScanWinner(cfg, q.records, now);
    forall k | 0 <= k < |q.records| ensures s.records[k].sender == q.records[k].sender {
      ScanKeepsRecords(cfg, q.records, now, k);
    }
    if s.best.Some? {
      assert Distinct(s.records);
      FindDistinct(s.records, s.best.value);
    }
  }

  lemma TellingQualifies(cfg: PortConfig, r: Record, m: Announce, now: int)
    requires Tells(r, m, FOREIGN_MASTER_THRESHOLD) && Current(m, now)
    ensures Qualified(r, now) && Candidate(cfg, r) == ToDataset(m, cfg)
  {
  }

  /** Who the port is to have as its best: what it hears is better than whatever else
      it still knows then, or, if it hears nothing, it knows nobody but perhaps its best
      master, whom it forgets if its announce receipt timer is running. */
  ghost predicate Outlived(cfg: PortConfig, p: PortValue, heard: Option<Dataset>, now: int) {
    forall r | r in p.records && Qualified(r, now) ::
      match heard
      case Some(d) => r.sender != d.sender ==> cfg.cmp(d, Candidate(cfg, r)) > 0
      case None => Waiting(p.state) && p.best == Some(r.sender)
  }

  lemma ToldIsBest(cfg: PortConfig, p: PortValue, q: PortValue, m: Announce, now: int)
    requires Ordinary(cfg) && PortInv(cfg, q) && Told(p, q, m, FOREIGN_MASTER_THRESHOLD) && Current(m, now)
    requires Outlived(cfg, p, Some(ToDataset(m, cfg)), now)
    ensures BestDataset(WithBest(cfg, q, now)) == Some(ToDataset(m, cfg))
  {
    hide Tells, Candidate, Qualified, RecordInv, Scan, WithBest, BestDataset, DscmpSets;
    var r :| r in q.records && Tells(r, m, FOREIGN_MASTER_THRESHOLD);
    var k :| 0 <= k < |q.records| && q.records[k] == r;
    TellsSender(r, m, FOREIGN_MASTER_THRESHOLD);
    TellingQualifies(cfg, r, m, now);
    forall j | 0 <= j < |q.records| && j != k && Qualified(q.records[j], now)
      ensures cfg.cmp(Candidate(cfg, q.records[k]), Candidate(cfg, q.records[j])) > 0
    {
      assert q.records[j].sender != m.source && q.records[j] in p.records;
    }
    ScanPrefers(cfg, q.records, now, k);
    BestIsChosen(cfg, q, now);
  }

  lemma ReceiveKeepsInv(cfg: PortConfig, q: PortValue, m: Announce, now: int)
    requires PortInv(cfg, q) && Enabled(q.state) && m.stepsRemoved < 255
    requires m.source.clockIdentity != cfg.identity.clockIdentity
    ensures PortInv(cfg, q.(records := WithForeignMaster(q.records, m, now).0))
  {
    hide PortInv;
    AnnounceIsStored(q, m, now);
    AnnounceKeepsInv(cfg, q, m, now);
  }

  lemma ReceiveTells(cfg: PortConfig, p: PortValue, q: PortValue, i: nat, m: Announce, k: nat, now: int)
    requires Ordinary(cfg) && Enabled(p.state) && m.stepsRemoved < 255 && Current(m, now)
    requires m.source.clockIdentity != cfg.identity.clockIdentity
    requires PortInv(cfg, q) && if k == 0 then q == p else k <= FOREIGN_MASTER_THRESHOLD && Told(p, q, m, k - 1)
    ensures var r := PortApply(cfg, q, Receive(i, m, now, true)); PortInv(cfg, r) && Told(p, r, m, k)
  {
    hide PortApply, WithForeignMaster, RecordInv;
    assert Enabled(q.state) && Distinct(q.records);
    ReceiveStores(cfg, q, m, now, i, true);
    ReceiveKeepsInv(cfg, q, m, now);
    if k == 0 {
      FirstTold(cfg, p, m, now);
    } else {
      NextTold(cfg, p, q, m, k - 1, now);
    }
  }

  function Thrice(s: Step): seq<Step> {
    [s, s, s]
  }

  lemma RunOnce(cfg: PortConfig, p: PortValue, s: Step)
    ensures PortRun(cfg, p, [s]) == PortApply(cfg, p, s)
  {
    hide PortApply;
    assert [s][..0] == [];
  }

  lemma RunThrice(cfg: PortConfig, p: PortValue, s: Step)
    ensures PortRun(cfg, p, Thrice(s)) == PortApply(cfg, PortApply(cfg, PortApply(cfg, p, s), s), s)
  {
    hide PortApply;
    assert [s, s, s][..2] == [s, s] && [s, s][..1] == [s];
    RunOnce(cfg, p, s);
    assert PortRun(cfg, p, [s, s]) == PortApply(cfg, PortApply(cfg, p, s), s);
  }

  /** Whatever a port has heard before, after three Announces of one sender that is its
      best master, unless something better has not expired. */
  lemma ThreeAreEnough(cfg: PortConfig, p: PortValue, i: nat, m: Announce, now: int)
    requires Ordinary(cfg) && PortInv(cfg, p) && Enabled(p.state) && m.stepsRemoved < 255 && Current(m, now)
    requires m.source.clockIdentity != cfg.identity.clockIdentity
    requires Outlived(cfg, p, Some(ToDataset(m, cfg)), now)
    ensures var q := PortRun(cfg, p, Thrice(Receive(i, m, now, true)));
            q.state == p.state && BestDataset(WithBest(cfg, q, now)) == Some(ToDataset(m, cfg))
  {
    hide PortApply, PortRun, PortInv, Thrice, Outlived, Ordinary, BestDataset, WithBest, SameBut;
    var s := Receive(i, m, now, true);
    RunThrice(cfg, p, s);
    var q := PortApply(cfg, p, s);
    var r := PortApply(cfg, q, s);
    ReceiveTells(cfg, p, p, i, m, 0, now);
    ReceiveTells(cfg, p, q, i, m, 1, now);
    ReceiveTells(cfg, p, r, i, m, 2, now);
    ToldIsBest(cfg, p, PortApply(cfg, r, s), m, now);
  }

  // ---------------------------------------------------------------------
  // Hearing nothing
  // ---------------------------------------------------------------------

  /** The announce receipt timer of a port that hears nothing expires, if it runs. */
  function Timeouts(i: nat, state: PortState): seq<Step> {
    if Waiting(state) then [AnnounceTimeout(i, false, true)] else []
  }

  lemma TimeoutTurns(cfg: PortConfig, p: PortValue, i: nat, renewFails: bool, initOk: bool)
    requires Ordinary(cfg) && Enabled(p.state)
    ensures PortApply(cfg, p, AnnounceTimeout(i, renewFails, initOk))
         == WithClearedBest(p).(state := PtpFsm(p.state, ANNOUNCE_RECEIPT_TIMEOUT_EXPIRES, false))
  {
  }

  /** The timer touches the record of the best master only. */
  lemma ClearsOne(p: PortValue)
    requires Distinct(p.records)
    ensures SameBut(p.records, WithClearedBest(p).records, p.best)
    ensures forall r | r in WithClearedBest(p).records && Some(r.sender) == p.best :: r.messages == []
  {
    if p.best.Some? {
      var i, qs := Find(p.records, p.best.value), WithClearedBest(p).records;
      if i < |p.records| {
        forall r: Record | Some(r.sender) != p.best ensures r in p.records <==> r in qs {
          if r in p.records {
            var k :| 0 <= k < |p.records| && p.records[k] == r;
            assert qs[k] == r;
          }
        }
      }
    }
  }

  lemma TimeoutForgets(cfg: PortConfig, p: PortValue, now: int)
    requires PortInv(cfg, p) && Outlived(cfg, p, None, now)
    ensures var q := if Waiting(p.state) then WithClearedBest(p) else p;
            forall r | r in q.records :: !Qualified(r, now)
  {
    hide RecordInv, Qualified, WithClearedBest;
    ClearsOne(p);
    forall r: Record | r.messages == [] ensures !Qualified(r, now) {
      Unqualified(r, now);
    }
  }

  lemma Unqualified(r: Record, now: int)
    requires r.messages == []
    ensures !Qualified(r, now)
  {
  }

  lemma NobodyIsBest(cfg: PortConfig, q: PortValue, now: int)
    requires PortInv(cfg, q) && !cfg.masterOnly && forall r | r in q.records :: !Qualified(r, now)
    ensures BestDataset(WithBest(cfg, q, now)).None?
  {
    hide RecordInv, Qualified;
    BestIsChosen(cfg, q, now);
    ScanWinner(cfg, q.records, now);
  }

  lemma WaitsInVain(cfg: PortConfig, p: PortValue, i: nat, now: int)
    requires Ordinary(cfg) && PortInv(cfg, p) && Enabled(p.state) && Outlived(cfg, p, None, now)
    ensures var q := PortRun(cfg, p, Timeouts(i, p.state));
            && q.state == PtpFsm(p.state, ANNOUNCE_RECEIPT_TIMEOUT_EXPIRES, false)
            && BestDataset(WithBest(cfg, q, now)).None?
  {
    hide RecordInv, PortApply, WithBest, BestDataset, Scan, WithClearedBest;
    TimeoutTurns(cfg, p, i, false, true);
    ClearedBestKeepsInv(cfg, p);
    TimeoutForgets(cfg, p, now);
    var q := PortRun(cfg, p, Timeouts(i, p.state));
    RunOnce(cfg, p, AnnounceTimeout(i, false, true));
    NobodyIsBest(cfg, q, now);
  }

  // ---------------------------------------------------------------------
  // Whatever else happens while a port listens
  // ---------------------------------------------------------------------

  /** What can happen to a port that is to hear a data set, or nothing, before the next
      decision: it receives Announces that say so, or too far away ones, its timer
      expires if it runs, and its clock is synchronized or loses that again. */
  predicate Listens(cfg: PortConfig, p: PortValue, heard: Option<Dataset>, s: Step) {
    match s
    case Receive(_, m, _, _) => m.stepsRemoved >= 255 || heard == Some(ToDataset(m, cfg))
    case AnnounceTimeout(_, _, _) => Waiting(p.state)
    case PortEvent(_, event, _) => event == MASTER_CLOCK_SELECTED || event == SYNCHRONIZATION_FAULT
    case Decide(_, _) => false
  }

  predicate SameRole(s: PortState, t: PortState) {
    s == t || (Synchronizing(s) && Synchronizing(t))
  }

  /** The records of p that are neither of this sender nor of the best master. */
  ghost predicate KeepsOthers(p: PortValue, q: PortValue, sender: Option<PortIdentity>) {
    forall r: Record | r in p.records && Some(r.sender) != sender && Some(r.sender) != p.best :: r in q.records
  }

  /** What a port that was p can have become: records of other senders stay, but if
      its timer has expired the port is a master and has forgotten its best one. */
  ghost predicate Drifted(p: PortValue, q: PortValue, sender: Option<PortIdentity>) {
    && q.best == p.best
    && if SameRole(q.state, p.state) then SameBut(p.records, q.records, sender)
       else Waiting(p.state) && q.state == MASTER && KeepsOthers(p, q, sender)
  }

  function SenderOf(heard: Option<Dataset>): Option<PortIdentity> {
    if heard.Some? then Some(heard.value.sender) else None
  }

  lemma DriftedIsEnabled(p: PortValue, q: PortValue, sender: Option<PortIdentity>)
    requires Enabled(p.state) && Drifted(p, q, sender)
    ensures Enabled(q.state)
  {
  }

  lemma ReceiveDrifts(cfg: PortConfig, p: PortValue, q: PortValue, heard: Option<Dataset>, s: Step)
    requires Ordinary(cfg) && Enabled(p.state) && s.Receive? && Listens(cfg, p, heard, s)
    requires Drifted(p, q, SenderOf(heard))
    ensures Drifted(p, PortApply(cfg, q, s), SenderOf(heard))
  {
    hide WithForeignMaster, Dispatched;
    var m := s.m;
    if m.source.clockIdentity != cfg.identity.clockIdentity {
      if m.stepsRemoved < 255 {
        ReceiveStores(cfg, q, m, s.now, s.port, s.initOk);
        OthersKept(q.records, m, s.now);
      } else {
        StateKept(cfg, q, false, s.initOk);
      }
    }
  }

  lemma TimeoutDrifts(cfg: PortConfig, p: PortValue, q: PortValue, sender: Option<PortIdentity>, s: Step)
    requires Ordinary(cfg) && Enabled(p.state) && s.AnnounceTimeout? && Waiting(p.state)
    requires Drifted(p, q, sender) && Distinct(q.records)
    ensures Drifted(p, PortApply(cfg, q, s), sender)
  {
    hide PortApply, WithClearedBest;
    TimeoutTurns(cfg, q, s.port, s.renewFails, s.initOk);
    ClearsOne(q);
    assert WithClearedBest(q).best == q.best by {
      KeepsBest(q);
    }
  }

  lemma KeepsBest(q: PortValue)
    ensures WithClearedBest(q).best == q.best
  {
  }

  lemma EventDrifts(cfg: PortConfig, p: PortValue, q: PortValue, sender: Option<PortIdentity>, s: Step)
    requires Ordinary(cfg) && Enabled(p.state) && Drifted(p, q, sender)
    requires s.PortEvent? && (s.event == MASTER_CLOCK_SELECTED || s.event == SYNCHRONIZATION_FAULT)
    ensures Drifted(p, PortApply(cfg, q, s), sender)
  {
    hide PortApply, SameBut, KeepsOthers, PtpFsm;
    DriftedIsEnabled(p, q, sender);
    EventTurns(cfg, q, s.port, s.event, s.initOk);
    KeepsRole(q.state, p.state, s.event);
  }

  lemma EventTurns(cfg: PortConfig, q: PortValue, i: nat, event: Event, initOk: bool)
    requires Ordinary(cfg) && Enabled(q.state) && (event == MASTER_CLOCK_SELECTED || event == SYNCHRONIZATION_FAULT)
    ensures PortApply(cfg, q, PortEvent(i, event, initOk)) == q.(state := PtpFsm(q.state, event, false))
  {
  }

  lemma KeepsRole(s: PortState, t: PortState, event: Event)
    requires event == MASTER_CLOCK_SELECTED || event == SYNCHRONIZATION_FAULT
    ensures SameRole(PtpFsm(s, event, false), t) <==> SameRole(s, t)
    ensures s == MASTER ==> PtpFsm(s, event, false) == MASTER
  {
  }

  lemma StepDrifts(cfg: PortConfig, p: PortValue, q: PortValue, heard: Option<Dataset>, s: Step)
    requires Ordinary(cfg) && Enabled(p.state) && Listens(cfg, p, heard, s)
    requires Drifted(p, q, SenderOf(heard)) && Distinct(q.records)
    ensures Drifted(p, PortApply(cfg, q, s), SenderOf(heard))
  {
    hide Drifted, PortApply, Ordinary;
    match s
    case Receive(_, _, _, _) => ReceiveDrifts(cfg, p, q, heard, s);
    case AnnounceTimeout(_, _, _) => TimeoutDrifts(cfg, p, q, SenderOf(heard), s);
    case PortEvent(_, _, _) => EventDrifts(cfg, p, q, SenderOf(heard), s);
  }

  /** What a port still knows then can be compared, with each other and with what it hears. */
  ghost predicate Consistent(cfg: PortConfig, p: PortValue, heard: Option<Dataset>, now: int) {
    heard.Some? ==>
      && (forall r | Other(p, heard.value, now, r) :: Comparable(IEEE1588, heard.value, Candidate(cfg, r)))
      && (forall r, s | Other(p, heard.value, now, r) && Other(p, heard.value, now, s) ::
            Comparable(IEEE1588, Candidate(cfg, r), Candidate(cfg, s)))
  }

  predicate Other(p: PortValue, d: Dataset, now: int, r: Record) {
    r in p.records && Qualified(r, now) && r.sender != d.sender
  }

  lemma DifferentSenders(a: Dataset, b: Dataset)
    requires Comparable(IEEE1588, a, b) && a.sender != b.sender && Dscmp(IEEE1588)(a, b) >= 0
    ensures Dscmp(IEEE1588)(a, b) > 0
  {
    hide Dscmp, TopologyKey, Memcmp;
    CompareIsKeyOrder(IEEE1588, a, b);
    var ka, kb := Key(IEEE1588, a), Key(IEEE1588, b);
    MemcmpAntisymmetric(kb, ka);
    if ka == kb {
      KeyOfSender(a, b);
    }
  }

  lemma KeyOfSender(a: Dataset, b: Dataset)
    requires Key(IEEE1588, a) == Key(IEEE1588, b)
    ensures a.sender == b.sender
  {
    assert Key(IEEE1588, a)[13..] == TopologyKey(a) && Key(IEEE1588, b)[13..] == TopologyKey(b);
    assert TopologyKey(a)[1..11] == a.sender.Image() && TopologyKey(b)[1..11] == b.sender.Image();
    PidCmpZero(a.sender, b.sender);
  }

  lemma CandidateSender(cfg: PortConfig, q: PortValue, r: Record, now: int)
    requires PortInv(cfg, q) && r in q.records && Qualified(r, now)
    ensures Candidate(cfg, r).sender == r.sender
  {
    assert RecordInv(cfg, r) && r.messages != [];
  }

  lemma CandidateOfWinner(cfg: PortConfig, q: PortValue, d: Dataset, now: int) returns (k: nat)
    requires PortInv(cfg, q) && !cfg.masterOnly && BestDataset(WithBest(cfg, q, now)) == Some(d)
    ensures k < |q.records| && Scan(cfg, q.records, now).best == Some(k) && Qualified(q.records[k], now)
    ensures Candidate(cfg, q.records[k]) == d && q.records[k].sender == d.sender && d.sender != d.receiver
  {
    BestIsChosen(cfg, q, now);
    ScanWinner(cfg, q.records, now);
    k := Scan(cfg, q.records, now).best.value;
    assert RecordInv(cfg, q.records[k]) && q.records[k].messages != [];
  }

  /** Whichever way a port came to have what it heard as its best, what else it knew
      had expired or is worse. */
  lemma BestHasOutlived(cfg: PortConfig, p: PortValue, q: PortValue, heard: Option<Dataset>, now: int)
    requires Ordinary(cfg) && PortInv(cfg, q) && Drifted(p, q, SenderOf(heard)) && heard.Some? && Consistent(cfg, p, heard, now)
    requires BestDataset(WithBest(cfg, q, now)) == heard && SameRole(q.state, p.state)
    ensures Outlived(cfg, p, heard, now)
  {
    hide RecordInv, Candidate, Qualified, Scan, WithBest, BestDataset, Comparable, Dscmp;
    var d := heard.value;
    var k := CandidateOfWinner(cfg, q, d, now);
    forall i, j | 0 <= i < |q.records| && 0 <= j < |q.records| && Qualified(q.records[i], now) && Qualified(q.records[j], now)
      ensures Comparable(IEEE1588, Candidate(cfg, q.records[i]), Candidate(cfg, q.records[j]))
    {
      PairComparable(cfg, p, q, d, now, k, i, j);
    }
    forall r | Other(p, d, now, r) ensures cfg.cmp(d, Candidate(cfg, r)) > 0 {
      var j :| 0 <= j < |q.records| && q.records[j] == r;
      ScanIsBest(IEEE1588, cfg, q.records, now, j);
      CandidateSender(cfg, q, r, now);
      DifferentSenders(d, Candidate(cfg, r));
    }
  }

  lemma PairComparable(cfg: PortConfig, p: PortValue, q: PortValue, d: Dataset, now: int, k: nat, i: nat, j: nat)
    requires SameBut(p.records, q.records, Some(d.sender)) && Consistent(cfg, p, Some(d), now) && Distinct(q.records)
    requires k < |q.records| && Candidate(cfg, q.records[k]) == d && q.records[k].sender == d.sender && d.sender != d.receiver
    requires i < |q.records| && j < |q.records| && Qualified(q.records[i], now) && Qualified(q.records[j], now)
    ensures Comparable(IEEE1588, Candidate(cfg, q.records[i]), Candidate(cfg, q.records[j]))
  {
    hide Qualified, Candidate;
    assert i != k ==> Other(p, d, now, q.records[i]);
    assert j != k ==> Other(p, d, now, q.records[j]);
  }

  /** And a port that knows nobody had forgotten whom it knew. */
  lemma NobodyHasOutlived(cfg: PortConfig, p: PortValue, q: PortValue, now: int)
    requires Ordinary(cfg) && PortInv(cfg, q) && Drifted(p, q, None) && BestDataset(WithBest(cfg, q, now)).None?
    ensures Outlived(cfg, p, None, now)
  {
    hide RecordInv, Candidate, Qualified, Scan, WithBest, BestDataset;
    BestIsChosen(cfg, q, now);
    ScanWinner(cfg, q.records, now);
  }
}
