/** What every port operation keeps, and what the scan for the best record finds. */
module PortTheory {
  import opened Octets
  import opened DataSets
  import opened Bmc
  import opened Fsm
  import opened ForeignMasters
  import opened PortBmc

  predicate RecordInv(cfg: PortConfig, r: Record) {
    && |r.messages| <= 3
    && |r.messages| + 1 <= r.received
    && r.sender.clockIdentity != cfg.identity.clockIdentity
    && (forall k | 0 <= k < |r.messages| :: r.messages[k].source == r.sender && r.messages[k].stepsRemoved < 255)
  }

  ghost predicate Distinct(rs: seq<Record>) {
    forall i, j | 0 <= i < j < |rs| :: rs[i].sender != rs[j].sender
  }

  ghost predicate PortInv(cfg: PortConfig, p: PortValue) {
    && (cfg.slaveOnly ==> SlaveOnlyState(p.state))
    && Distinct(p.records)
    && (forall i | 0 <= i < |p.records| :: RecordInv(cfg, p.records[i]))
    && (p.best.Some? ==> Find(p.records, p.best.value) < |p.records|)
    && (!Enabled(p.state) ==> p.records == [] && p.best.None?)
  }

  lemma {:induction false} FindDistinct(rs: seq<Record>, k: nat)
    requires Distinct(rs) && k < |rs|
    ensures Find(rs, rs[k].sender) == k
  {
    var i := Find(rs, rs[k].sender);
    assert i <= k;
  }

  /** The senders of a list decide what Find finds. */
  lemma {:induction false} FindSameSenders(rs: seq<Record>, ss: seq<Record>, x: PortIdentity)
    requires |rs| == |ss| && forall k | 0 <= k < |rs| :: rs[k].sender == ss[k].sender
    ensures Find(rs, x) == Find(ss, x)
  {
    if rs != [] && rs[0].sender != x {
      FindSameSenders(rs[1..], ss[1..], x);
    }
  }

  lemma StoredKeepsInv(cfg: PortConfig, r: Record, m: Announce, now: int)
    requires RecordInv(cfg, r) && m.source == r.sender && m.stepsRemoved < 255
    ensures RecordInv(cfg, Stored(r, m, now)) && Stored(r, m, now).sender == r.sender
  {
    var ms := Pruned(r.messages, now);
    forall k | 0 <= k < |[m] + ms| ensures ([m] + ms)[k].source == r.sender && ([m] + ms)[k].stepsRemoved < 255 {
      if k > 0 {
        assert ([m] + ms)[k] == r.messages[k - 1];
      }
    }
  }

  /** An Announce from another clock keeps the invariant and the best record. */
  lemma ForeignMasterKeepsInv(cfg: PortConfig, p: PortValue, m: Announce, now: int)
    requires PortInv(cfg, p) && Enabled(p.state)
    requires m.source.clockIdentity != cfg.identity.clockIdentity && m.stepsRemoved < 255
    ensures PortInv(cfg, p.(records := WithForeignMaster(p.records, m, now).0))
  {
    var rs := WithForeignMaster(p.records, m, now).0;
    var i := Find(p.records, m.source);
    if i == |p.records| {
      if p.best.Some? {
        assert rs[1..] == p.records;
      }
    } else {
      StoredKeepsInv(cfg, p.records[i], m, now);
      if p.best.Some? {
        FindSameSenders(p.records, rs, p.best.value);
      }
    }
  }

  lemma AnnounceKeepsInv(cfg: PortConfig, p: PortValue, m: Announce, now: int)
    requires PortInv(cfg, p) && m.source.clockIdentity != cfg.identity.clockIdentity
    ensures var q := WithAnnounce(p, m, now).0;
            PortInv(cfg, q) && q.state == p.state && q.best == p.best
  {
    if m.stepsRemoved < 255 && Enabled(p.state) {
      ForeignMasterKeepsInv(cfg, p, m, now);
      var i := Find(p.records, m.source);
      if Following(p.state) && p.best == Some(m.source) && i < |p.records| {
        StoredKeepsInv(cfg, p.records[i], m, now);
        FindSameSenders(p.records, WithAnnounce(p, m, now).0.records, m.source);
      }
    }
  }

  lemma ClearedBestKeepsInv(cfg: PortConfig, p: PortValue)
    requires PortInv(cfg, p)
    ensures var q := WithClearedBest(p);
            PortInv(cfg, q) && q.state == p.state && q.best == p.best
  {
    if p.best.Some? {
      FindSameSenders(p.records, WithClearedBest(p).records, p.best.value);
    }
  }

  lemma DispatchKeepsInv(cfg: PortConfig, p: PortValue, event: Event, mdiff: bool, initOk: bool)
    requires HasMachine(cfg) && PortInv(cfg, p)
    ensures PortInv(cfg, Dispatched(cfg, p, event, mdiff, initOk))
  {
  }

  // ---------------------------------------------------------------------
  // Faults and recovery
  // ---------------------------------------------------------------------

  /** A port as it begins to work: it listens, and knows nobody. */
  function Restarted(): PortValue {
    PortValue(LISTENING, [], None)
  }

  lemma MachineStops(cfg: PortConfig, s: PortState)
    requires HasMachine(cfg) && Enabled(s) && (cfg.slaveOnly ==> SlaveOnlyState(s))
    ensures cfg.machine(s, FAULT_DETECTED, false) == FAULTY && cfg.machine(s, DESIGNATED_DISABLED, false) == DISABLED
    ensures cfg.machine(FAULTY, FAULT_CLEARED, false) == cfg.machine(DISABLED, DESIGNATED_ENABLED, false) == INITIALIZING
    ensures cfg.machine(INITIALIZING, INIT_COMPLETE, false) == LISTENING
  {
  }

  /** From any state of operation a fault and its end lead, if the port can be
      initialized, to a port that listens and knows nobody; with clearFaultAsap the
      fault does so alone. */
  lemma RecoversFromFault(cfg: PortConfig, p: PortValue)
    requires HasMachine(cfg) && PortInv(cfg, p) && Enabled(p.state)
    ensures var faulty := Dispatched(cfg, p, FAULT_DETECTED, false, true);
            if cfg.clearFaultAsap then faulty == Restarted()
            else faulty == PortValue(FAULTY, [], None) && Dispatched(cfg, faulty, FAULT_CLEARED, false, true) == Restarted()
  {
    MachineStops(cfg, p.state);
    hide PtpFsm, PtpSlaveFsm;
  }

  /** If the port cannot be initialized the fault stays, cleared at once or not. */
  lemma FaultStays(cfg: PortConfig, p: PortValue)
    requires HasMachine(cfg) && PortInv(cfg, p) && Enabled(p.state)
    ensures var faulty := Dispatched(cfg, p, FAULT_DETECTED, false, false);
            faulty == PortValue(FAULTY, [], None) && (!cfg.clearFaultAsap ==> Dispatched(cfg, faulty, FAULT_CLEARED, false, false) == faulty)
  {
  }

  /** A port that is disabled knows nobody, and only enabling it or a restart makes it
      work again. */
  lemma DisabledUntilEnabled(cfg: PortConfig, p: PortValue, event: Event, mdiff: bool)
    requires HasMachine(cfg) && PortInv(cfg, p) && Enabled(p.state)
    ensures var off := Dispatched(cfg, p, DESIGNATED_DISABLED, false, true);
            && off == PortValue(DISABLED, [], None)
            && Dispatched(cfg, off, event, mdiff, true)
               == if event == DESIGNATED_ENABLED || event == INITIALIZE || event == POWERUP then Restarted() else off
  {
    MachineStops(cfg, p.state);
    DisabledMachine(cfg, event, mdiff);
    hide PtpFsm, PtpSlaveFsm;
  }

  lemma DisabledMachine(cfg: PortConfig, event: Event, mdiff: bool)
    requires HasMachine(cfg)
    ensures cfg.machine(DISABLED, event, mdiff)
         == if event == DESIGNATED_ENABLED || event == INITIALIZE || event == POWERUP then INITIALIZING else DISABLED
    ensures cfg.machine(INITIALIZING, INIT_COMPLETE, false) == LISTENING
  {
  }

  // ---------------------------------------------------------------------
  // When a decision is due
  // ---------------------------------------------------------------------

  lemma StoredQualifies(r: Record, m: Announce, now: int)
    requires Current(m, now)
    requires Pruned(r.messages, now) != [] ==> Current(r.messages[0], now)
    ensures Qualified(Stored(r, m, now), now) <==> Pruned(r.messages, now) != []
  {
    var ms := Pruned(r.messages, now);
    var all := [m] + ms;
    if |ms| == 2 {
      assert all[..2] == [m, ms[0]] && ms[0] == r.messages[0];
      assert Pruned(all, now) == Pruned(all[..2], now) == all[..2];
    } else if |ms| == 1 {
      assert all == [m, ms[0]] && Pruned(all, now) == all;
    } else {
      assert all == [m];
    }
  }

  /** An Announce asks for a decision exactly if it leaves its sender's record
      qualified, and the record was not qualified before or, whoever sent it,
      the grandmaster it names or the way there has changed; the current master's
      record is not new when it qualifies.  This holds as long as the newest
      Announce of the record has not expired before an older one. */
  lemma DecisionDueExactly(p: PortValue, m: Announce, now: int)
    requires Enabled(p.state) && m.stepsRemoved < 255 && Current(m, now)
    requires var i := Find(p.records, m.source);
             i < |p.records| && Pruned(p.records[i].messages, now) != [] ==> Current(p.records[i].messages[0], now)
    ensures var i := Find(p.records, m.source);
            WithAnnounce(p, m, now).1 <==>
              && i < |p.records|
              && Qualified(WithAnnounce(p, m, now).0.records[i], now)
              && ((!Qualified(p.records[i], now) && !(Following(p.state) && p.best == Some(m.source)))
                  || Differs(m, p.records[i].messages[0]))
  {
    var i := Find(p.records, m.source);
    if i < |p.records| {
      StoredQualifies(p.records[i], m, now);
      assert Pruned(p.records[i].messages, now) != [] ==> p.records[i].messages != [];
    }
  }

  // ---------------------------------------------------------------------
  // The scan
  // ---------------------------------------------------------------------

  /** The data set with which a record takes part in the scan. */
  function Candidate(cfg: PortConfig, r: Record): Dataset {
    if r.messages == [] then r.dataset else ToDataset(r.messages[0], cfg)
  }

  ghost predicate AllComparable(profile: Profile, cfg: PortConfig, rs: seq<Record>, now: int) {
    forall i, j | 0 <= i < |rs| && 0 <= j < |rs| && Qualified(rs[i], now) && Qualified(rs[j], now) ::
      Comparable(profile, Candidate(cfg, rs[i]), Candidate(cfg, rs[j]))
  }

  /** The best record was qualified and keeps its stored Announces; there is
      none only when no record was qualified. */
  lemma {:induction false} ScanWinner(cfg: PortConfig, rs: seq<Record>, now: int)
    ensures var s := Scan(cfg, rs, now);
            if s.best.None? then forall i | 0 <= i < |rs| :: !Qualified(rs[i], now)
            else
              var b := s.best.value;
              && Qualified(rs[b], now)
              && s.records[b] == rs[b].(dataset := Candidate(cfg, rs[b]), messages := Pruned(rs[b].messages, now))
  {
    if rs != [] {
      ScanWinner(cfg, rs[..|rs| - 1], now);
    }
  }

  /** The scan's choice in terms of the records it started from. */
  lemma ScanStep(cfg: PortConfig, rs: seq<Record>, now: int)
    requires rs != []
    ensures var n := |rs| - 1;
            var b := Scan(cfg, rs[..n], now).best;
            Scan(cfg, rs, now).best ==
              if Qualified(rs[n], now) && (b.None? || cfg.cmp(Candidate(cfg, rs[n]), Candidate(cfg, rs[b.value])) > 0)
              then Some(n) else b
  {
    var n := |rs| - 1;
    ScanWinner(cfg, rs[..n], now);
    assert forall i | 0 <= i < n :: rs[..n][i] == rs[i];
  }

  lemma FewerComparable(profile: Profile, cfg: PortConfig, rs: seq<Record>, now: int, n: nat)
    requires AllComparable(profile, cfg, rs, now) && n <= |rs|
    ensures AllComparable(profile, cfg, rs[..n], now)
  {
  }

  /** Although the scan clears the losers as it goes, no qualified record of
      the list it started from beats the one it returns. */
  lemma {:induction false} ScanIsBest(profile: Profile, cfg: PortConfig, rs: seq<Record>, now: int, k: nat)
    requires cfg.cmp == Dscmp(profile) && AllComparable(profile, cfg, rs, now) && k < |rs| && Qualified(rs[k], now)
    ensures var s := Scan(cfg, rs, now);
            && s.best.Some?
            && cfg.cmp(Candidate(cfg, rs[s.best.value]), Candidate(cfg, rs[k])) >= 0
  {
    hide Scan, Comparable, Candidate, Qualified;
    var n := |rs| - 1;
    var b := Scan(cfg, rs[..n], now).best;
    ScanWinner(cfg, rs[..n], now);
    ScanStep(cfg, rs, now);
    if b.Some? {
      assert rs[..n][b.value] == rs[b.value];
    }
    if k < n {
      FewerComparable(profile, cfg, rs, now, n);
      assert rs[..n][k] == rs[k];
      ScanIsBest(profile, cfg, rs[..n], now, k);
      if Scan(cfg, rs, now).best == Some(n) {
        CompareTransitive(profile, Candidate(cfg, rs[n]), Candidate(cfg, rs[b.value]), Candidate(cfg, rs[k]));
      }
    } else {
      CompareAntisymmetric(profile, Some(Candidate(cfg, rs[n])), Some(Candidate(cfg, rs[n])));
      if b.Some? {
        CompareAntisymmetric(profile, Some(Candidate(cfg, rs[n])), Some(Candidate(cfg, rs[b.value])));
      }
    }
  }

  /** The scan changes messages and data sets only, and each record loses
      messages at most. */
  lemma {:induction false} ScanKeepsRecords(cfg: PortConfig, rs: seq<Record>, now: int, k: nat)
    requires k < |rs|
    ensures var r := Scan(cfg, rs, now).records[k];
            r.sender == rs[k].sender && r.received == rs[k].received && r.messages <= rs[k].messages
  {
    var n := |rs| - 1;
    if k < n {
      ScanKeepsRecords(cfg, rs[..n], now, k);
    }
  }

  /** What the scan leaves of a record: its data set is that of the newest Announce, and its
      messages are pruned; all of them are dropped exactly if it is qualified and does not
      beat the best of the records before it. */
  predicate LeftOf(cfg: PortConfig, rs: seq<Record>, now: int, k: nat, r: Record)
    requires k < |rs|
  {
    var best := Scan(cfg, rs[..k], now).best;
    && r.dataset == Candidate(cfg, rs[k])
    && r.messages ==
         if Qualified(rs[k], now) && best.Some? && cfg.cmp(Candidate(cfg, rs[k]), Candidate(cfg, rs[best.value])) <= 0 then []
         else Pruned(rs[k].messages, now)
  }

  lemma ScannedIs(cfg: PortConfig, r: Record, best: Option<Dataset>, now: int)
    ensures var w := Scanned(cfg, r, best, now);
            && w.dataset == Candidate(cfg, r)
            && w.messages ==
                 if Qualified(r, now) && best.Some? && cfg.cmp(Candidate(cfg, r), best.value) <= 0 then []
                 else Pruned(r.messages, now)
  {
    if r.messages == [] {
      assert Pruned(r.messages, now) == [];
    }
    hide Pruned;
  }

  lemma BestOfScan(cfg: PortConfig, rs: seq<Record>, now: int)
    ensures var s := Scan(cfg, rs, now);
            s.BestDataset() == if s.best.Some? then Some(Candidate(cfg, rs[s.best.value])) else None
  {
    ScanWinner(cfg, rs, now);
    hide Scan, Candidate, Qualified, Pruned;
  }

  lemma LastIsLeft(cfg: PortConfig, rs: seq<Record>, now: int)
    requires rs != []
    ensures LeftOf(cfg, rs, now, |rs| - 1, Scan(cfg, rs, now).records[|rs| - 1])
  {
    hide Scan, Scanned, Candidate, Qualified, Pruned;
    var n := |rs| - 1;
    var s := Scan(cfg, rs[..n], now);
    assert rs[..n + 1] == rs;
    NextInList(cfg, rs, n, now);
    BestOfScan(cfg, rs[..n], now);
    ScannedIs(cfg, rs[n], s.BestDataset(), now);
    assert s.best.Some? ==> rs[..n][s.best.value] == rs[s.best.value];
  }

  lemma {:induction false} ScanLeaves(cfg: PortConfig, rs: seq<Record>, now: int, k: nat)
    requires k < |rs|
    ensures LeftOf(cfg, rs, now, k, Scan(cfg, rs, now).records[k])
  {
    var n := |rs| - 1;
    if k == n {
      LastIsLeft(cfg, rs, now);
    } else {
      ScanLeaves(cfg, rs[..n], now, k);
      assert rs[..n][..k] == rs[..k] && forall i | 0 <= i < n :: rs[..n][i] == rs[i];
      hide Qualified, Candidate, Scanned;
    }
  }

  lemma BestKeepsInv(cfg: PortConfig, p: PortValue, now: int)
    requires PortInv(cfg, p)
    ensures PortInv(cfg, WithBest(cfg, p, now)) && WithBest(cfg, p, now).state == p.state
  {
    var q := WithBest(cfg, p, now);
    if !cfg.masterOnly {
      forall k | 0 <= k < |p.records| ensures q.records[k].sender == p.records[k].sender && RecordInv(cfg, q.records[k]) {
        ScanKeepsRecords(cfg, p.records, now, k);
      }
      assert Distinct(q.records);
      var b := Scan(cfg, p.records, now).best;
      if b.Some? {
        FindDistinct(q.records, b.value);
      }
    }
  }

  /** What port_compute_best() returns: a record whose data set is that of its
      newest Announce, of which it keeps two, sent by a port that has
      announced at least three times since the record was created. */
  lemma BestRecord(cfg: PortConfig, p: PortValue, now: int) returns (r: Record)
    requires PortInv(cfg, p) && WithBest(cfg, p, now).best.Some?
    ensures var q := WithBest(cfg, p, now);
            var i := Find(q.records, q.best.value);
            && i < |q.records| && r == q.records[i] && BestDataset(q) == Some(r.dataset)
    ensures |r.messages| == FOREIGN_MASTER_THRESHOLD && r.received >= 3
    ensures r.dataset == ToDataset(r.messages[0], cfg) && r.dataset.sender == r.sender
    ensures r.dataset.stepsRemoved < 255 && r.dataset.sender != r.dataset.receiver
  {
    var q := WithBest(cfg, p, now);
    BestKeepsInv(cfg, p, now);
    var b := Scan(cfg, p.records, now).best.value;
    ScanWinner(cfg, p.records, now);
    FindDistinct(q.records, b);
    r := q.records[b];
    assert r.messages[0] == p.records[b].messages[0];
  }
}
