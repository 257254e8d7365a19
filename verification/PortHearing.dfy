/** Ports that have heard one sender, or none. */
module PortHearing {
  import opened Octets
  import opened DataSets
  import opened Bmc
  import opened Fsm
  import opened ForeignMasters
  import opened PortBmc
  import opened PortTheory
  import opened ClockBmc
  import opened ClockTheory

  /** A record with two Announces. */
  function Heard(m: Announce, cfg: PortConfig): Record {
    Record(m.source, [m, m], ToDataset(m, cfg), 3)
  }

  function Silent(state: PortState): PortValue {
    PortValue(state, [], None)
  }

  function Hearing(state: PortState, m: Announce, cfg: PortConfig): PortValue {
    PortValue(state, [Heard(m, cfg)], Some(m.source))
  }

  lemma Prunes(m: Announce, now: int)
    requires Current(m, now)
    ensures Pruned([m, m], now) == [m, m]
  {
  }

  lemma ScansOne(cfg: PortConfig, r: Record, now: int)
    requires Qualified(r, now)
    ensures Scan(cfg, [r], now) == ScanResult([Refreshed(cfg, r, now)], Some(0))
  {
    assert [r][..0] == [];
  }

  /** A port keeps what it has heard twice. */
  lemma HearingStays(cfg: PortConfig, state: PortState, m: Announce, now: int)
    requires Current(m, now) && !cfg.masterOnly
    ensures WithBest(cfg, Hearing(state, m, cfg), now) == Hearing(state, m, cfg)
    ensures BestDataset(Hearing(state, m, cfg)) == Some(ToDataset(m, cfg))
    ensures BestOf(Hearing(state, m, cfg)) == Some(Heard(m, cfg))
  {
    Prunes(m, now);
    ScansOne(cfg, Heard(m, cfg), now);
    assert Find([Heard(m, cfg)], m.source) == 0;
  }

  lemma SilentStays(cfg: PortConfig, state: PortState, now: int)
    requires !cfg.masterOnly
    ensures WithBest(cfg, Silent(state), now) == Silent(state)
    ensures BestDataset(Silent(state)) == None
  {
  }

  lemma HearingInv(cfg: PortConfig, state: PortState, m: Announce)
    requires Enabled(state) && !cfg.slaveOnly && m.stepsRemoved < 255
    requires m.source.clockIdentity != cfg.identity.clockIdentity
    ensures PortInv(cfg, Hearing(state, m, cfg)) && Anchored(Hearing(state, m, cfg))
  {
    assert RecordInv(cfg, Heard(m, cfg));
    assert Find([Heard(m, cfg)], m.source) == 0;
  }

  /** A port that knows one sender hears it once more. */
  lemma HearsAgain(state: PortState, r: Record, m: Announce, now: int)
    requires Enabled(state) && m.stepsRemoved < 255 && r.sender == m.source
    ensures WithAnnounce(PortValue(state, [r], None), m, now).0 == PortValue(state, [Stored(r, m, now)], None)
  {
    hide Stored, NewsTo, Pruned;
  }

  lemma HearsFirst(state: PortState, m: Announce, now: int)
    requires Enabled(state) && m.stepsRemoved < 255
    ensures WithAnnounce(Silent(state), m, now).0 == PortValue(state, [Known(m, [], 1)], None)
  {
    assert [Fresh(m)] + [] == [Fresh(m)];
  }

  lemma StoredTwice(m: Announce, now: int)
    requires Current(m, now)
    ensures Stored(Known(m, [], 1), m, now) == Known(m, [m], 2)
    ensures Stored(Known(m, [m], 2), m, now) == Known(m, [m, m], 3)
  {
    assert [m] + [] == [m] && Pruned([m], now) == [m] && [m] + [m] == [m, m];
  }

  lemma ThirdQualifies(cfg: PortConfig, state: PortState, m: Announce, now: int)
    requires !cfg.masterOnly && Current(m, now)
    ensures WithBest(cfg, PortValue(state, [Known(m, [m, m], 3)], None), now) == Hearing(state, m, cfg)
  {
    Prunes(m, now);
    ScansOne(cfg, Known(m, [m, m], 3), now);
  }

  function Known(m: Announce, messages: seq<Announce>, received: nat): Record {
    Record(m.source, messages, Blank(m.source), received)
  }

  lemma Unqualified(cfg: PortConfig, state: PortState, r: Record, now: int)
    requires |r.messages| < FOREIGN_MASTER_THRESHOLD
    ensures BestDataset(WithBest(cfg, PortValue(state, [r], None), now)).None?
  {
    assert [r][..0] == [];
  }

  /** A port that has forgotten everybody needs three Announces of one sender to
      have it as its best. */
  lemma ThreeAnnounces(cfg: PortConfig, state: PortState, m: Announce, now: int)
    requires Enabled(state) && !cfg.masterOnly && m.stepsRemoved < 255 && Current(m, now)
    ensures var p := WithAnnounce(Silent(state), m, now).0;
            var q := WithAnnounce(p, m, now).0;
            var r := WithAnnounce(q, m, now).0;
            && BestDataset(WithBest(cfg, p, now)).None? && BestDataset(WithBest(cfg, q, now)).None?
            && WithBest(cfg, r, now) == Hearing(state, m, cfg)
  {
    hide WithAnnounce, Stored, WithBest, Hearing;
    StoredTwice(m, now);
    HearsFirst(state, m, now);
    HearsAgain(state, Known(m, [], 1), m, now);
    HearsAgain(state, Known(m, [m], 2), m, now);
    Unqualified(cfg, state, Known(m, [], 1), now);
    Unqualified(cfg, state, Known(m, [m], 2), now);
    ThirdQualifies(cfg, state, m, now);
  }
}
