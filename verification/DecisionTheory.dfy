/** When an Announce asks for a state decision, and that it asks for one whenever the
    outcome could be another. */
module DecisionTheory {
  import opened Octets
  import opened DataSets
  import opened Bmc
  import opened Fsm
  import opened ForeignMasters
  import opened PortBmc
  import opened PortTheory
  import opened PortListening
  import opened ClockBmc
  import opened ClockTheory

  /** For a record that is qualified before and after, an Announce asks for no decision
      exactly if the data set of the record names the same grandmaster, with the same
      attributes, as many steps away. */
  lemma NoDecisionExactly(cfg: PortConfig, p: PortValue, m: Announce, now: int)
    requires Enabled(p.state) && m.stepsRemoved < 255
    requires var i := Find(p.records, m.source);
             && i < |p.records| && Qualified(p.records[i], now)
             && i < |WithAnnounce(p, m, now).0.records| && Qualified(WithAnnounce(p, m, now).0.records[i], now)
    ensures var i := Find(p.records, m.source);
            var a, b := Candidate(cfg, p.records[i]), Candidate(cfg, WithAnnounce(p, m, now).0.records[i]);
            !WithAnnounce(p, m, now).1 <==>
              && a.priority1 == b.priority1 && a.identity == b.identity && a.quality == b.quality
              && a.priority2 == b.priority2 && a.stepsRemoved == b.stepsRemoved
  {
    var i := Find(p.records, m.source);
    NewestIsKept(p.records[i], now);
    AnnounceIsStored(p, m, now);
    assert WithAnnounce(p, m, now).0.records[i] == Stored(p.records[i], m, now);
  }

  lemma NewestIsKept(r: Record, now: int)
    requires Pruned(r.messages, now) != []
    ensures r.messages != [] && Pruned(r.messages, now)[0] == r.messages[0]
  {
  }

  // ---------------------------------------------------------------------
  // Lists that give the same choice
  // ---------------------------------------------------------------------

  /** Records that mean the same to the scan. */
  predicate SameToScan(cfg: PortConfig, r: Record, q: Record, now: int) {
    (Qualified(r, now) <==> Qualified(q, now)) && (Qualified(r, now) ==> Candidate(cfg, r) == Candidate(cfg, q))
  }

  lemma {:induction false} ScanAlike(cfg: PortConfig, rs: seq<Record>, qs: seq<Record>, now: int)
    requires |rs| == |qs| && forall k | 0 <= k < |rs| :: SameToScan(cfg, rs[k], qs[k], now)
    ensures Scan(cfg, rs, now).best == Scan(cfg, qs, now).best
  {
    hide Scan, Qualified, Candidate;
    var n := |rs| - 1;
    if rs == [] {
      ScanOfNone(cfg, now);
    } else {
      ScanAlike(cfg, rs[..n], qs[..n], now);
      ScanStep(cfg, rs, now);
      ScanStep(cfg, qs, now);
      ScanWinner(cfg, rs[..n], now);
      var b := Scan(cfg, rs[..n], now).best;
      assert SameToScan(cfg, rs[n], qs[n], now);
      if b.Some? {
        assert SameToScan(cfg, rs[b.value], qs[b.value], now) && rs[..n][b.value] == rs[b.value];
      }
    }
  }

  lemma ScanOfNone(cfg: PortConfig, now: int)
    ensures Scan(cfg, [], now).best == None
  {
  }

  /** A record that is not qualified can stand in front. */
  lemma {:induction false} ScanBehind(cfg: PortConfig, r: Record, rs: seq<Record>, now: int)
    requires !Qualified(r, now)
    ensures var b := Scan(cfg, rs, now).best;
            Scan(cfg, [r] + rs, now).best == if b.Some? then Some(b.value + 1) else None
  {
    hide Scan, Qualified, Candidate;
    var all := [r] + rs;
    var n := |rs|;
    ScanStep(cfg, all, now);
    if rs == [] {
      assert all[..0] == [];
      ScanOfNone(cfg, now);
    } else {
      assert all[..n] == [r] + rs[..n - 1];
      ScanBehind(cfg, r, rs[..n - 1], now);
      ScanStep(cfg, rs, now);
      var b := Scan(cfg, rs[..n - 1], now).best;
      assert all[n] == rs[n - 1] && (b.Some? ==> all[b.value + 1] == rs[b.value]);
    }
  }

  // ---------------------------------------------------------------------
  // An Announce that changes nothing
  // ---------------------------------------------------------------------

  /** The newest stored Announce of the sender has not expired before an older one. */
  predicate InTurn(p: PortValue, m: Announce, now: int) {
    var i := Find(p.records, m.source);
    i < |p.records| && Pruned(p.records[i].messages, now) != [] ==> Current(p.records[i].messages[0], now)
  }

  /** The current master is heard again after all but one of its Announces have expired:
      its record becomes qualified once more, and nothing is asked for. */
  predicate Returns(p: PortValue, m: Announce, now: int) {
    var i := Find(p.records, m.source);
    Following(p.state) && p.best == Some(m.source) && i < |p.records| && |Pruned(p.records[i].messages, now)| == 1
  }

  lemma ReturnsUnasked(p: PortValue, m: Announce, now: int)
    requires m.stepsRemoved < 255 && Current(m, now) && InTurn(p, m, now) && Returns(p, m, now)
    ensures var i := Find(p.records, m.source);
            var (q, news) := WithAnnounce(p, m, now);
            && !Qualified(p.records[i], now) && i < |q.records| && Qualified(q.records[i], now)
            && (!Differs(m, p.records[i].messages[0]) ==> !news)
  {
    var i := Find(p.records, m.source);
    StoredQualifies(p.records[i], m, now);
    NewestIsKept(p.records[i], now);
  }

  lemma QuietStore(cfg: PortConfig, p: PortValue, m: Announce, now: int)
    requires PortInv(cfg, p) && Enabled(p.state) && m.stepsRemoved < 255 && Current(m, now)
    requires InTurn(p, m, now) && !Returns(p, m, now) && !WithAnnounce(p, m, now).1
    requires Find(p.records, m.source) < |p.records|
    ensures var r := p.records[Find(p.records, m.source)]; SameToScan(cfg, r, Stored(r, m, now), now)
  {
    var i := Find(p.records, m.source);
    var r := p.records[i];
    StoredQualifies(r, m, now);
    if Pruned(r.messages, now) != [] {
      NewestIsKept(r, now);
      assert RecordInv(cfg, r) && r.messages[0].source == m.source;
    }
  }

  /** What the port chooses stays the same data set. */
  lemma QuietPort(cfg: PortConfig, p: PortValue, q: PortValue, m: Announce, now: int)
    requires PortInv(cfg, p) && PortInv(cfg, q) && q.records == WithAnnounce(p, m, now).0.records
    requires Current(m, now) && InTurn(p, m, now) && !Returns(p, m, now) && !WithAnnounce(p, m, now).1
    ensures BestDataset(WithBest(cfg, q, now)) == BestDataset(WithBest(cfg, p, now))
  {
    hide RecordInv, Qualified, Candidate, WithBest, BestDataset, Scan, Stored, NewsTo;
    if cfg.masterOnly {
      NoneIfMasterOnly(cfg, p, now);
      NoneIfMasterOnly(cfg, q, now);
      return;
    }
    BestIsChosen(cfg, p, now);
    BestIsChosen(cfg, q, now);
    if m.stepsRemoved < 255 && Enabled(p.state) {
      AnnounceIsStored(p, m, now);
      var i := Find(p.records, m.source);
      hide WithAnnounce;
      if i == |p.records| {
        FreshIsUnqualified(m, now);
        ScanBehind(cfg, Fresh(m), p.records, now);
        var b := Scan(cfg, p.records, now).best;
        assert b.Some? ==> q.records[b.value + 1] == p.records[b.value];
      } else {
        QuietStore(cfg, p, m, now);
        ScanAlike(cfg, p.records, q.records, now);
        ScanWinner(cfg, p.records, now);
        var b := Scan(cfg, p.records, now).best;
        assert b.Some? ==> SameToScan(cfg, p.records[b.value], q.records[b.value], now);
      }
    }
  }

  lemma NoneIfMasterOnly(cfg: PortConfig, p: PortValue, now: int)
    requires cfg.masterOnly
    ensures BestDataset(WithBest(cfg, p, now)) == None
  {
  }

  lemma FreshIsUnqualified(m: Announce, now: int)
    ensures !Qualified(Fresh(m), now)
  {
  }

  lemma SameChoices(cfg: ClockConfig, c: ClockValue, d: ClockValue, now: int)
    requires |c.ports| == |d.ports| == |cfg.ports|
    requires forall i | 0 <= i < |c.ports| ::
               BestDataset(WithBest(cfg.ports[i], c.ports[i], now)) == BestDataset(WithBest(cfg.ports[i], d.ports[i], now))
    ensures Chosen(cfg, c, now).best == Chosen(cfg, d, now).best && Chosen(cfg, c, now).bestId == Chosen(cfg, d, now).bestId
  {
    hide BestDataset, WithBest, ClockBest;
    assert BestsOf(WithBests(cfg, c, now)) == BestsOf(WithBests(cfg, d, now));
  }

  /** An Announce that asks for no decision leaves the choice of a master as it would
      have been, unless it is the return of the current master. */
  lemma UnaskedIsUnchanged(cfg: ClockConfig, c: ClockValue, i: nat, m: Announce, now: int, initOk: bool)
    requires WellFormed(cfg) && ClockInv(cfg, c) && i < |c.ports| && m.source.clockIdentity != cfg.dds.clockIdentity
    requires Current(m, now) && InTurn(c.ports[i], m, now) && !Returns(c.ports[i], m, now)
    requires !WithAnnounce(c.ports[i], m, now).1
    ensures var d := Apply(cfg, c, Receive(i, m, now, initOk));
            && Chosen(cfg, d, now).best == Chosen(cfg, c, now).best
            && Chosen(cfg, d, now).bestId == Chosen(cfg, c, now).bestId
  {
    hide PortInv, WithBest, BestDataset, Dispatched, WithAnnounce, Chosen, Anchored, SingleSlave;
    var s := Receive(i, m, now, initOk);
    var d := Apply(cfg, c, s);
    StepKeepsInv(cfg, c, s);
    assert PortInv(cfg.ports[i], c.ports[i]) && PortInv(cfg.ports[i], d.ports[i]);
    UnaskedRecords(cfg.ports[i], c.ports[i], m, now, initOk);
    QuietPort(cfg.ports[i], c.ports[i], d.ports[i], m, now);
    SameChoices(cfg, c, d, now);
  }

  lemma UnaskedRecords(cfg: PortConfig, p: PortValue, m: Announce, now: int, initOk: bool)
    requires HasMachine(cfg) && PortInv(cfg, p) && !WithAnnounce(p, m, now).1
    ensures Dispatched(cfg, WithAnnounce(p, m, now).0, NONE, false, initOk).records == WithAnnounce(p, m, now).0.records
  {
    hide Stored, NewsTo, RecordInv, Distinct, Dispatched, HasMachine;
    NothingHappens(cfg, WithAnnounce(p, m, now).0, initOk);
  }

  lemma NothingHappens(cfg: PortConfig, p: PortValue, initOk: bool)
    requires HasMachine(cfg) && (Enabled(p.state) || p.records == [])
    ensures Dispatched(cfg, p, NONE, false, initOk).records == p.records
  {
  }
}
