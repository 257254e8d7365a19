/** The slave's side of the exchanges (port.c), and what offset it measures
    through a chain of end-to-end transparent clocks (tc.c, tsproc.c). */
module OffsetChain {
  import opened CArith
  import opened Octets
  import opened DataSets
  import opened Fsm
  import opened Lists
  import opened TransparentClock
  import opened Tsproc

  // ---------------------------------------------------------------------
  // Pairing a Sync with its Follow_Up (port_syfufsm())
  // ---------------------------------------------------------------------

  /** A received message; ingress is its hardware, soft its software time stamp. */
  datatype Rx = Rx(msg: Msg, ingress: int, soft: int)

  datatype Syfu = EMPTY | HAVE_SYNC(sync: Rx) | HAVE_FUP(fup: Rx)

  /** The arguments of port_synchronize(). */
  datatype Synchronization = Synchronization(ingress: int, origin: int, correction1: int, correction2: int)

  /** Syncs and Follow_Ups count on a port that synchronizes, from its master. */
  predicate Accepts(state: PortState, parent: PortIdentity, m: Msg) {
    (state == UNCALIBRATED || state == SLAVE) && m.source == parent
  }

  /** An accepted Sync: the port's asymmetry is added to the correction. */
  function WithSync(s: Syfu, asymmetry: int, rx: Rx): (Syfu, Option<Synchronization>) {
    var m := rx.msg.(correction := rx.msg.correction + asymmetry);
    if !m.twoStep then (EMPTY, Some(Synchronization(rx.ingress, m.origin, m.correction, 0)))
    else if s.HAVE_FUP? && s.fup.soft >= rx.soft && s.fup.msg.sequenceId == m.sequenceId then
      (EMPTY, Some(Synchronization(rx.ingress, s.fup.msg.origin, m.correction, s.fup.msg.correction)))
    else (HAVE_SYNC(rx.(msg := m)), None)
  }

  /** An accepted Follow_Up. */
  function WithFollowUp(s: Syfu, rx: Rx): (Syfu, Option<Synchronization>) {
    if s.HAVE_SYNC? && s.sync.msg.sequenceId == rx.msg.sequenceId then
      (EMPTY, Some(Synchronization(s.sync.ingress, rx.msg.origin, s.sync.msg.correction, rx.msg.correction)))
    else (HAVE_FUP(rx), None)
  }

  /** process_sync() */
  function AfterSync(s: Syfu, asymmetry: int, state: PortState, parent: PortIdentity, rx: Rx): (Syfu, Option<Synchronization>) {
    if Accepts(state, parent, rx.msg) then WithSync(s, asymmetry, rx) else (s, None)
  }

  /** process_follow_up() */
  function AfterFollowUp(s: Syfu, state: PortState, parent: PortIdentity, rx: Rx): (Syfu, Option<Synchronization>) {
    if Accepts(state, parent, rx.msg) then WithFollowUp(s, rx) else (s, None)
  }

  class SyncReceiver {
    const asymmetry: int
    var syfu: Syfu
    /** Every call of port_synchronize(), oldest first. */
    var synchronizations: seq<Synchronization>

    constructor (asymmetry: int)
      ensures this.asymmetry == asymmetry && syfu == EMPTY && synchronizations == []
    {
      this.asymmetry, syfu, synchronizations := asymmetry, EMPTY, [];
    }

    method ProcessSync(state: PortState, parent: PortIdentity, rx: Rx)
      modifies this
      ensures var done := AfterSync(old(syfu), asymmetry, state, parent, rx);
              && syfu == done.0
              && synchronizations == old(synchronizations) + (if done.1.Some? then [done.1.value] else [])
    {
      match state {
        case UNCALIBRATED | SLAVE =>
        case _ => return;
      }
      if parent != rx.msg.source {
        return;
      }
      var m := rx.msg.(correction := rx.msg.correction + asymmetry);
      if !m.twoStep {
        Synchronize(Synchronization(rx.ingress, m.origin, m.correction, 0));
        syfu := EMPTY;
        return;
      }
      match syfu {
        case HAVE_FUP(fup) =>
          if fup.soft >= rx.soft && fup.msg.sequenceId == m.sequenceId {
            Synchronize(Synchronization(rx.ingress, fup.msg.origin, m.correction, fup.msg.correction));
            syfu := EMPTY;
          } else {
            syfu := HAVE_SYNC(rx.(msg := m));
          }
        case EMPTY | HAVE_SYNC(_) =>
          syfu := HAVE_SYNC(rx.(msg := m));
      }
    }

    method ProcessFollowUp(state: PortState, parent: PortIdentity, rx: Rx)
      modifies this
      ensures var done := AfterFollowUp(old(syfu), state, parent, rx);
              && syfu == done.0
              && synchronizations == old(synchronizations) + (if done.1.Some? then [done.1.value] else [])
    {
      match state {
        case UNCALIBRATED | SLAVE =>
        case _ => return;
      }
      if parent != rx.msg.source {
        return;
      }
      match syfu {
        case HAVE_SYNC(sync) =>
          if sync.msg.sequenceId == rx.msg.sequenceId {
            Synchronize(Synchronization(sync.ingress, rx.msg.origin, sync.msg.correction, rx.msg.correction));
            syfu := EMPTY;
          } else {
            syfu := HAVE_FUP(rx);
          }
        case EMPTY | HAVE_FUP(_) =>
          syfu := HAVE_FUP(rx);
      }
    }

    method Synchronize(s: Synchronization)
      modifies this`synchronizations
      ensures synchronizations == old(synchronizations) + [s]
    {
      synchronizations := synchronizations + [s];
    }
  }

  /** The machine before the second message of a pair has nothing to match it. */
  predicate Unmatched(s: Syfu, id: U16) {
    && (s.HAVE_SYNC? ==> s.sync.msg.sequenceId != id)
    && (s.HAVE_FUP? ==> s.fup.msg.sequenceId != id)
  }

  /** A two-step Sync and its Follow_Up, of the master, synchronize once, with the
      same arguments whichever is received first; what others send changes nothing. */
  lemma EitherOrder(s: Syfu, asymmetry: int, state: PortState, parent: PortIdentity, sync: Rx, fup: Rx)
    requires sync.msg.twoStep && sync.msg.sequenceId == fup.msg.sequenceId && fup.soft >= sync.soft
    requires Unmatched(s, sync.msg.sequenceId) && sync.msg.source == fup.msg.source
    ensures var (s1, none1) := AfterSync(s, asymmetry, state, parent, sync);
            var (s2, none2) := AfterFollowUp(s, state, parent, fup);
            && none1.None? && none2.None?
            && AfterFollowUp(s1, state, parent, fup) == AfterSync(s2, asymmetry, state, parent, sync)
            && AfterFollowUp(s1, state, parent, fup) ==
                 if (state == UNCALIBRATED || state == SLAVE) && sync.msg.source == parent then
                   (EMPTY, Some(Synchronization(
                     sync.ingress, fup.msg.origin, sync.msg.correction + asymmetry, fup.msg.correction)))
                 else (s, None)
  {
  }

  /** A Sync or a Follow_Up that the port receives, in its state of that time and with
      its parent of that time. */
  datatype Heard = Heard(isSync: bool, state: PortState, parent: PortIdentity, rx: Rx)

  function AfterHeard(s: Syfu, asymmetry: int, h: Heard): (Syfu, Option<Synchronization>) {
    if h.isSync then AfterSync(s, asymmetry, h.state, h.parent, h.rx) else AfterFollowUp(s, h.state, h.parent, h.rx)
  }

  /** The machine after a run, and every synchronization, oldest first. */
  function AfterAll(asymmetry: int, hs: seq<Heard>): (Syfu, seq<Synchronization>) {
    if hs == [] then (EMPTY, [])
    else
      var (s, done) := AfterAll(asymmetry, hs[..|hs| - 1]);
      var (s', more) := AfterHeard(s, asymmetry, hs[|hs| - 1]);
      (s', done + if more.Some? then [more.value] else [])
  }

  /** The message i of the run came from the parent of a port that synchronizes. */
  predicate FromParent(hs: seq<Heard>, i: nat, isSync: bool) {
    && i < |hs| && hs[i].isSync == isSync && hs[i].rx.msg.source == hs[i].parent
    && (hs[i].state == UNCALIBRATED || hs[i].state == SLAVE)
  }

  /** The Follow_Up j belongs to the Sync i; before the Sync it counts only if it was
      time stamped no earlier. */
  predicate Belongs(hs: seq<Heard>, i: nat, j: nat) {
    && FromParent(hs, i, true) && FromParent(hs, j, false) && hs[i].rx.msg.twoStep
    && hs[j].rx.msg.sequenceId == hs[i].rx.msg.sequenceId
    && (j < i ==> hs[j].rx.soft >= hs[i].rx.soft)
  }

  /** What a Sync of the parent synchronizes with: its own origin, or that of its Follow_Up. */
  ghost predicate Explains(hs: seq<Heard>, asymmetry: int, i: nat, s: Synchronization) {
    && FromParent(hs, i, true)
    && s.ingress == hs[i].rx.ingress && s.correction1 == hs[i].rx.msg.correction + asymmetry
    && if hs[i].rx.msg.twoStep then
         exists j: nat :: Belongs(hs, i, j) && s.origin == hs[j].rx.msg.origin && s.correction2 == hs[j].rx.msg.correction
       else s.origin == hs[i].rx.msg.origin && s.correction2 == 0
  }

  /** Ever later Syncs, each of which explains one synchronization. */
  ghost predicate Sources(hs: seq<Heard>, asymmetry: int, done: seq<Synchronization>, from: seq<nat>) {
    && |from| == |done|
    && (forall k | 0 <= k < |from| :: Explains(hs, asymmetry, from[k], done[k]))
    && (forall k, l | 0 <= k < l < |from| :: from[k] < from[l])
  }

  /** Where the message that waits came from: a Sync that no synchronization used. */
  ghost predicate Waits(hs: seq<Heard>, asymmetry: int, s: Syfu, from: seq<nat>) {
    match s
    case EMPTY => true
    case HAVE_SYNC(sync) =>
      exists i: nat ::
        && FromParent(hs, i, true) && hs[i].rx.msg.twoStep && (forall k | 0 <= k < |from| :: from[k] < i)
        && sync == hs[i].rx.(msg := hs[i].rx.msg.(correction := hs[i].rx.msg.correction + asymmetry))
    case HAVE_FUP(fup) => exists j: nat :: FromParent(hs, j, false) && hs[j].rx == fup
  }

  lemma ExplainsLater(hs: seq<Heard>, more: seq<Heard>, asymmetry: int, i: nat, s: Synchronization)
    requires hs <= more && Explains(hs, asymmetry, i, s)
    ensures Explains(more, asymmetry, i, s)
  {
    assert hs[i] == more[i];
    if hs[i].rx.msg.twoStep {
      var j: nat :| Belongs(hs, i, j) && s.origin == hs[j].rx.msg.origin && s.correction2 == hs[j].rx.msg.correction;
      assert hs[j] == more[j];
      assert Belongs(more, i, j);
    }
  }

  lemma WaitsLater(hs: seq<Heard>, more: seq<Heard>, asymmetry: int, s: Syfu, from: seq<nat>)
    requires hs <= more && Waits(hs, asymmetry, s, from)
    ensures Waits(more, asymmetry, s, from)
  {
    match s
    case EMPTY =>
    case HAVE_SYNC(sync) =>
      var i: nat :| && FromParent(hs, i, true) && hs[i].rx.msg.twoStep && (forall k | 0 <= k < |from| :: from[k] < i)
               && sync == hs[i].rx.(msg := hs[i].rx.msg.(correction := hs[i].rx.msg.correction + asymmetry));
      assert hs[i] == more[i];
    case HAVE_FUP(fup) =>
      var j: nat :| FromParent(hs, j, false) && hs[j].rx == fup;
      assert hs[j] == more[j];
  }

  /** Over any run each synchronization comes from a Sync, and its Follow_Up, that the
      port's parent sent while the port synchronized, and each Sync gives one at most. */
  lemma {:induction false} SynchronizesWithParent(asymmetry: int, hs: seq<Heard>) returns (from: seq<nat>)
    ensures var (s, done) := AfterAll(asymmetry, hs); Sources(hs, asymmetry, done, from) && Waits(hs, asymmetry, s, from)
  {
    if hs == [] {
      from := [];
    } else {
      var n := |hs| - 1;
      var before := SynchronizesWithParent(asymmetry, hs[..n]);
      var (s, done) := AfterAll(asymmetry, hs[..n]);
      forall k | 0 <= k < |done| ensures Explains(hs, asymmetry, before[k], done[k]) {
        ExplainsLater(hs[..n], hs, asymmetry, before[k], done[k]);
      }
      WaitsLater(hs[..n], hs, asymmetry, s, before);
      from := NextSource(asymmetry, hs, s, done, before);
    }
  }

  lemma NextSource(asymmetry: int, hs: seq<Heard>, s: Syfu, done: seq<Synchronization>, before: seq<nat>) returns (from: seq<nat>)
    requires hs != [] && Sources(hs, asymmetry, done, before) && Waits(hs, asymmetry, s, before)
    requires forall k | 0 <= k < |before| :: before[k] < |hs| - 1
    ensures var (s', more) := AfterHeard(s, asymmetry, hs[|hs| - 1]);
            && Sources(hs, asymmetry, done + (if more.Some? then [more.value] else []), from)
            && Waits(hs, asymmetry, s', from)
  {
    hide Sources, Waits, Explains;
    var n := |hs| - 1;
    if !FromParent(hs, n, hs[n].isSync) {
      from := before;
      assert done + [] == done;
    } else if hs[n].isSync {
      from := SourceOfSync(asymmetry, hs, s, done, before);
    } else {
      from := SourceOfFollowUp(asymmetry, hs, s, done, before);
    }
  }

  lemma SourceOfSync(asymmetry: int, hs: seq<Heard>, s: Syfu, done: seq<Synchronization>, before: seq<nat>) returns (from: seq<nat>)
    requires hs != [] && Sources(hs, asymmetry, done, before) && Waits(hs, asymmetry, s, before)
    requires FromParent(hs, |hs| - 1, true) && forall k | 0 <= k < |before| :: before[k] < |hs| - 1
    ensures var (s', more) := WithSync(s, asymmetry, hs[|hs| - 1].rx);
            && Sources(hs, asymmetry, done + (if more.Some? then [more.value] else []), from)
            && Waits(hs, asymmetry, s', from)
  {
    var n := |hs| - 1;
    var more := WithSync(s, asymmetry, hs[n].rx).1;
    if more.None? {
      from := before;
      assert done + [] == done;
    } else {
      from := before + [n];
      if hs[n].rx.msg.twoStep {
        var j: nat :| FromParent(hs, j, false) && hs[j].rx == s.fup;
        assert Belongs(hs, n, j);
      }
      assert Explains(hs, asymmetry, n, more.value);
      hide Explains;
    }
  }

  lemma SourceOfFollowUp(asymmetry: int, hs: seq<Heard>, s: Syfu, done: seq<Synchronization>, before: seq<nat>) returns (from: seq<nat>)
    requires hs != [] && Sources(hs, asymmetry, done, before) && Waits(hs, asymmetry, s, before)
    requires FromParent(hs, |hs| - 1, false) && forall k | 0 <= k < |before| :: before[k] < |hs| - 1
    ensures var (s', more) := WithFollowUp(s, hs[|hs| - 1].rx);
            && Sources(hs, asymmetry, done + (if more.Some? then [more.value] else []), from)
            && Waits(hs, asymmetry, s', from)
  {
    var n := |hs| - 1;
    var more := WithFollowUp(s, hs[n].rx).1;
    if more.None? {
      from := before;
      assert done + [] == done;
    } else {
      var i: nat :| && FromParent(hs, i, true) && hs[i].rx.msg.twoStep && (forall k | 0 <= k < |before| :: before[k] < i)
                    && s.sync == hs[i].rx.(msg := hs[i].rx.msg.(correction := hs[i].rx.msg.correction + asymmetry));
      from := before + [i];
      assert Belongs(hs, i, n);
      assert Explains(hs, asymmetry, i, more.value);
      hide Explains;
    }
  }

  /** The corrected time of departure, t1c (port_synchronize()). */
  function Departure(s: Synchronization): int {
    s.origin + (CorrectionToTmv(s.correction1) + CorrectionToTmv(s.correction2))
  }

  /** The corrected time of arrival, t4c (process_delay_resp()). */
  function Arrival(resp: Msg): int {
    resp.origin - CorrectionToTmv(resp.correction)
  }

  // ---------------------------------------------------------------------
  // A chain of transparent clocks
  // ---------------------------------------------------------------------

  /** One transparent clock on the way of a pair of messages: what the list of
      the port that keeps the first of them held, and everything that passed. */
  datatype Relay = Relay(q: Ingress, residence: int, list: seq<Txd>, traffic: seq<Traffic>)

  function Total(hops: seq<Relay>): int {
    if hops == [] then 0 else Total(hops[..|hops| - 1]) + hops[|hops| - 1].residence
  }

  /** What the clocks add for the links that the Sync came by, in units of 2^-16 ns: the
      delays that they have measured, if they measure those of their peers, and the
      configured asymmetries. */
  function Links(hops: seq<Relay>): int {
    if hops == [] then 0
    else Links(hops[..|hops| - 1]) + (0x1_0000 * hops[|hops| - 1].q.peerDelay + hops[|hops| - 1].q.asymmetry)
  }

  predicate Handles(h: Relay) {
    forall e | e in h.traffic :: WellKinded(e)
  }

  /** The clock is given the Sync and the Follow_Up once each, in some order, and
      sends out the Follow_Up fup'. */
  ghost predicate RelaysSync(h: Relay, sync: Msg, fup: Msg, fup': Msg) {
    var k := SyncKey(h.q.number, sync.sequenceId, sync.source);
    && Handles(h)
    && Filter(h.list, StoredFor(k)) == []
    && (|| Filter(h.traffic, Concerning(k)) == [Syfup(h.q, sync, h.residence), Syfup(h.q, fup, 0)]
        || Filter(h.traffic, Concerning(k)) == [Syfup(h.q, fup, 0), Syfup(h.q, sync, h.residence)])
    && SentFor(k, h.list, h.traffic) == [fup']
  }

  /** The clock forwards the Delay_Req, then gets the response resp and sends it
      on as resp'. */
  ghost predicate RelaysDelay(h: Relay, req: Msg, resp: Msg, resp': Msg) {
    var k := DelayKey(h.q.number, req.sequenceId, req.source);
    && Handles(h)
    && Filter(h.list, StoredFor(k)) == []
    && Filter(h.traffic, Concerning(k)) == [Request(h.q, req, h.residence), Response(h.q.number, resp)]
    && SentFor(k, h.list, h.traffic) == [resp']
  }

  lemma RelayedFollowUp(h: Relay, sync: Msg, fup: Msg, fup': Msg)
    requires RelaysSync(h, sync, fup, fup') && sync.kind == SYNC && fup.kind == FOLLOW_UP
    requires fup.sequenceId == sync.sequenceId && fup.source == sync.source
    ensures fup' == fup.(correction := fup.correction + ToTimeInterval(h.residence) + (0x1_0000 * h.q.peerDelay + h.q.asymmetry))
  {
    PairCompletesOnce(SyncKey(h.q.number, sync.sequenceId, sync.source), h.list, h.traffic, h.q, sync, fup, h.residence, 0);
    assert [fup'][0] == [Forwarded(h.q, fup, h.residence)][0];
  }

  lemma RelayedResponse(h: Relay, req: Msg, resp: Msg, resp': Msg)
    requires RelaysDelay(h, req, resp, resp') && req.kind == DELAY_REQ && resp.kind == DELAY_RESP
    requires resp.sequenceId == req.sequenceId && resp.requesting == req.source
    ensures resp' == resp.(correction := resp.correction + ToTimeInterval(h.residence))
  {
    RequestAnsweredOnce(DelayKey(h.q.number, req.sequenceId, req.source), h.list, h.traffic, h.q, req, resp, h.residence);
    assert [resp'][0] == [resp.(correction := resp.correction + ToTimeInterval(h.residence))][0];
  }

  /** fups are the Follow_Ups before, between and behind the clocks. */
  ghost predicate SyncChain(hops: seq<Relay>, sync: Msg, fups: seq<Msg>) {
    && |fups| == |hops| + 1 && sync.kind == SYNC && fups[0].kind == FOLLOW_UP
    && fups[0].sequenceId == sync.sequenceId && fups[0].source == sync.source
    && forall i {:trigger hops[i]} | 0 <= i < |hops| :: RelaysSync(hops[i], sync, fups[i], fups[i + 1])
  }

  ghost predicate DelayChain(hops: seq<Relay>, req: Msg, resps: seq<Msg>) {
    && |resps| == |hops| + 1 && req.kind == DELAY_REQ && resps[0].kind == DELAY_RESP
    && resps[0].sequenceId == req.sequenceId && resps[0].requesting == req.source
    && forall i {:trigger hops[i]} | 0 <= i < |hops| :: RelaysDelay(hops[i], req, resps[i], resps[i + 1])
  }

  /** Behind any number of clocks the Follow_Up differs only in its correction, by the
      total residence time of the Sync and what is added for the links. */
  lemma {:induction false} FollowUpThroughChain(hops: seq<Relay>, sync: Msg, fups: seq<Msg>)
    requires SyncChain(hops, sync, fups)
    ensures fups[|hops|] == fups[0].(correction := fups[0].correction + ToTimeInterval(Total(hops)) + Links(hops))
  {
    if hops != [] {
      var n := |hops| - 1;
      assert hops[..n] == hops[..|hops| - 1] && fups[..|hops|][n] == fups[n];
      FollowUpThroughChain(hops[..n], sync, fups[..|hops|]);
      RelayedFollowUp(hops[n], sync, fups[n], fups[n + 1]);
    }
  }

  lemma {:induction false} ResponseThroughChain(hops: seq<Relay>, req: Msg, resps: seq<Msg>)
    requires DelayChain(hops, req, resps)
    ensures resps[|hops|] == resps[0].(correction := resps[0].correction + ToTimeInterval(Total(hops)))
  {
    if hops != [] {
      var n := |hops| - 1;
      assert hops[..n] == hops[..|hops| - 1] && resps[..|hops|][n] == resps[n];
      ResponseThroughChain(hops[..n], req, resps[..|hops|]);
      RelayedResponse(hops[n], req, resps[n], resps[n + 1]);
    }
  }

  lemma DepartureAdds(ingress: int, c1: int, first: Msg, last: Msg, n: int, links: int)
    requires last == first.(correction := first.correction + ToTimeInterval(n) + links)
    ensures Departure(Synchronization(ingress, last.origin, c1, last.correction))
         == Departure(Synchronization(ingress, first.origin, c1, first.correction + links)) + n
  {
    CorrectionAdds(first.correction + links, n);
  }

  /** The time of departure that the slave computes grows by the residence times
      of the Sync, and what is added for the links. */
  lemma DepartureThroughChain(hops: seq<Relay>, sync: Msg, fups: seq<Msg>, c1: int, ingress: int)
    requires SyncChain(hops, sync, fups)
    ensures Departure(Synchronization(ingress, fups[|hops|].origin, c1, fups[|hops|].correction))
         == Departure(Synchronization(ingress, fups[0].origin, c1, fups[0].correction + Links(hops))) + Total(hops)
  {
    hide RelaysSync, Departure, ToTimeInterval, Total, Links;
    FollowUpThroughChain(hops, sync, fups);
    DepartureAdds(ingress, c1, fups[0], fups[|hops|], Total(hops), Links(hops));
  }

  lemma OneStepAdds(sync: Msg, last: Msg, asymmetry: int, ingress: int, n: int, links: int)
    requires last == FollowUpOf(sync).(correction := ToTimeInterval(n) + ToTimeInterval(links))
    ensures var corrected := sync.(correction := sync.correction + ToTimeInterval(n) + ToTimeInterval(links), twoStep := false);
            Departure(Synchronization(ingress, last.origin, sync.correction + asymmetry, last.correction))
            == Departure(WithSync(EMPTY, asymmetry, Rx(corrected, ingress, 0)).1.value)
  {
    CorrectionAdds(sync.correction + asymmetry, n + links);
    CorrectionAdds(0, n + links);
  }

  lemma LastFollowUp(hops: seq<Relay>, sync: Msg, fups: seq<Msg>) returns (last: Msg)
    requires SyncChain(hops, sync, fups) && fups[0] == FollowUpOf(sync)
    ensures |fups| == |hops| + 1 && fups[|hops|] == last
    ensures last == FollowUpOf(sync).(correction := ToTimeInterval(Total(hops)) + Links(hops))
  {
    last := fups[|hops|];
    FollowUpThroughChain(hops, sync, fups);
    hide ToTimeInterval, RelaysSync, Total, Links;
  }

  /** Behind a one-step master it is as if the transparent clocks had corrected
      the Sync itself, instead of making a Follow_Up for it, as long as they add whole
      nanoseconds for the links. */
  lemma OneStepDeparture(hops: seq<Relay>, sync: Msg, fups: seq<Msg>, asymmetry: int, ingress: int, links: int)
    requires SyncChain(hops, sync, fups) && fups[0] == FollowUpOf(sync) && Links(hops) == ToTimeInterval(links)
    ensures var corrected := sync.(correction := sync.correction + ToTimeInterval(Total(hops)) + Links(hops), twoStep := false);
            Departure(Synchronization(ingress, fups[|hops|].origin, sync.correction + asymmetry, fups[|hops|].correction))
            == Departure(WithSync(EMPTY, asymmetry, Rx(corrected, ingress, 0)).1.value)
  {
    hide SyncChain;
    var last := LastFollowUp(hops, sync, fups);
    OneStepAdds(sync, last, asymmetry, ingress, Total(hops), links);
  }

  // ---------------------------------------------------------------------
  // The offset
  // ---------------------------------------------------------------------

  /** A Sync exchange as seen by somebody with the master's clock: when the Sync
      left, and how long the links delayed it; likewise for the Delay_Req. */
  datatype Truth = Truth(departure: int, down: nat, request: int, up: nat, offset: int)

  /** The smallest whole number of nanoseconds not below a correction. */
  function Ceiling(c: int): int {
    -CorrectionToTmv(-c)
  }

  lemma FloorBelowCeiling(c: int)
    ensures CorrectionToTmv(c) <= Ceiling(c)
  {
  }

  /** The offset in terms of the true times, when the asymmetry adds low to the
      Sync and takes high from the response. */
  lemma OffsetArithmetic(v: TsValue, truth: Truth, low: int, high: int, down: int)
    requires v.mode == RAW && v.ratio == 1.0 && low <= high
    requires v.t1 == truth.departure + low + down
    requires v.t2 == truth.departure + truth.down + down + truth.offset
    requires v.t3 == truth.request + truth.offset
    requires v.t4 == truth.request + truth.up + high
    ensures OffsetUpdate(v).Some? <==> v.t1 != 0 && v.t2 != 0 && v.t3 != 0
    ensures OffsetUpdate(v).Some? ==>
              var wrong := OffsetUpdate(v).value.offset - truth.offset;
              var residual := truth.down - truth.up - low - high;
              && (wrong * 2 == residual || wrong * 2 == residual + 1)
              && (low == high && residual == 0 ==> wrong == 0)
  {
    assert v.t2 - v.t3 + (v.t4 - v.t1) == truth.down + truth.up + high - low >= 0;
  }

  /** The time stamps of the slave, if last is the Follow_Up and answer the
      Delay_Resp it receives, and the messages resided for down and up. */
  ghost predicate Measured(v: TsValue, truth: Truth, asymmetry: int, last: Msg, answer: Msg, down: int) {
    && v.mode == RAW && v.ratio == 1.0
    && v.t1 == Departure(Synchronization(v.t2, last.origin, asymmetry, last.correction))
    && v.t2 == truth.departure + truth.down + down + truth.offset
    && v.t3 == truth.request + truth.offset
    && v.t4 == Arrival(answer)
  }

  /** The measured offset is wrong by half the asymmetry of the links that is not
      configured, to within rounding. */
  ghost predicate Accurate(v: TsValue, truth: Truth, asymmetry: int) {
    && (OffsetUpdate(v).Some? <==> v.t1 != 0 && v.t2 != 0 && v.t3 != 0)
    && (OffsetUpdate(v).Some? ==>
          var wrong := OffsetUpdate(v).value.offset - truth.offset;
          var residual := truth.down - truth.up - CorrectionToTmv(asymmetry) - Ceiling(asymmetry);
          && (wrong * 2 == residual || wrong * 2 == residual + 1)
          && (CorrectionToTmv(asymmetry) == Ceiling(asymmetry) && residual == 0 ==> wrong == 0))
  }

  lemma MeasuredIsAccurate(v: TsValue, truth: Truth, asymmetry: int, last: Msg, answer: Msg, down: int, up: int)
    requires Measured(v, truth, asymmetry, last, answer, down)
    requires last.origin == truth.departure && last.correction == ToTimeInterval(down)
    requires answer.origin == truth.request + truth.up + up && answer.correction == -asymmetry + ToTimeInterval(up)
    ensures Accurate(v, truth, asymmetry)
  {
    CorrectionAdds(0, down);
    CorrectionAdds(-asymmetry, up);
    FloorBelowCeiling(asymmetry);
    OffsetArithmetic(v, truth, CorrectionToTmv(asymmetry), Ceiling(asymmetry), down);
  }

  /** A slave that is truth.offset ahead of its master measures that, through any
      two chains of transparent clocks, which add nothing for the links. */
  lemma OffsetThroughChain(
    v: TsValue, truth: Truth, asymmetry: int,
    syncHops: seq<Relay>, sync: Msg, fups: seq<Msg>, delayHops: seq<Relay>, req: Msg, resps: seq<Msg>)
    requires SyncChain(syncHops, sync, fups) && DelayChain(delayHops, req, resps) && Links(syncHops) == 0
    // The messages as the master and the slave send them.
    requires fups[0].correction == 0 && fups[0].origin == truth.departure
    requires req.correction == -asymmetry && resps[0].correction == req.correction
    requires resps[0].origin == truth.request + truth.up + Total(delayHops)
    requires Measured(v, truth, sync.correction + asymmetry, fups[|syncHops|], resps[|delayHops|], Total(syncHops))
    requires sync.correction == 0
    ensures Accurate(v, truth, asymmetry)
  {
    FollowUpThroughChain(syncHops, sync, fups);
    ResponseThroughChain(delayHops, req, resps);
    MeasuredIsAccurate(v, truth, asymmetry, fups[|syncHops|], resps[|delayHops|], Total(syncHops), Total(delayHops));
  }

  // ---------------------------------------------------------------------
  // Peer-to-peer transparent clocks
  // ---------------------------------------------------------------------

  /** The clock knows the delay of the link that the Sync comes by, as the mean delay that
      it has measured and an asymmetry. */
  predicate Knows(h: Relay, delay: int) {
    0x1_0000 * h.q.peerDelay + h.q.asymmetry == 0x1_0000 * delay
  }

  function Sum(delays: seq<int>): int {
    if delays == [] then 0 else Sum(delays[..|delays| - 1]) + delays[|delays| - 1]
  }

  lemma {:induction false} LinksAreKnown(hops: seq<Relay>, delays: seq<int>)
    requires |delays| == |hops| && forall i | 0 <= i < |hops| :: Knows(hops[i], delays[i])
    ensures Links(hops) == 0x1_0000 * Sum(delays)
  {
    if hops != [] {
      var n := |hops| - 1;
      LinksAreKnown(hops[..n], delays[..n]);
      assert Knows(hops[n], delays[n]);
    }
  }

  /** Behind peer-to-peer transparent clocks that know the delays of their links, the offset
      that is computed with the filtered delay is wrong by the difference between the delay
      of the slave's own link and the filtered one with the slave's asymmetry, whatever the
      other links delay the Sync by and however long the clocks keep it. */
  lemma OffsetThroughPeers(
    v: TsValue, departure: int, offset: int, down: int, asymmetry: int,
    hops: seq<Relay>, delays: seq<int>, sync: Msg, fups: seq<Msg>)
    requires SyncChain(hops, sync, fups)
    requires |delays| == |hops| && forall i | 0 <= i < |hops| :: Knows(hops[i], delays[i])
    requires sync.correction == 0 && fups[0].correction == 0 && fups[0].origin == departure
    requires v.mode == FILTER && v.filteredDelayValid && v.t1 != 0 && v.t2 != 0
    requires v.t1 == Departure(Synchronization(v.t2, fups[|hops|].origin, sync.correction + asymmetry, fups[|hops|].correction))
    requires v.t2 == departure + Sum(delays) + Total(hops) + down + offset
    ensures OffsetUpdate(v).Some?
    ensures OffsetUpdate(v).value.offset == offset + down - CorrectionToTmv(asymmetry) - v.filteredDelay
  {
    hide SyncChain, Links, Total, Sum, Departure, OffsetUpdate;
    DepartureThroughChain(hops, sync, fups, asymmetry, v.t2);
    LinksAreKnown(hops, delays);
    DepartureIs(v.t2, departure, asymmetry, Sum(delays));
    FilteredOffset(v, departure + CorrectionToTmv(asymmetry) + Sum(delays) + Total(hops), down - CorrectionToTmv(asymmetry), offset);
  }

  lemma DepartureIs(ingress: int, origin: int, asymmetry: int, links: int)
    ensures Departure(Synchronization(ingress, origin, asymmetry, 0x1_0000 * links)) == origin + CorrectionToTmv(asymmetry) + links
  {
    CorrectionAdds(0, links);
  }

  lemma FilteredOffset(v: TsValue, t1: int, unknown: int, offset: int)
    requires v.mode == FILTER && v.filteredDelayValid && v.t1 == t1 != 0 && v.t2 == t1 + unknown + offset != 0
    ensures OffsetUpdate(v).Some? && OffsetUpdate(v).value.offset == offset + unknown - v.filteredDelay
  {
  }

  /** In the raw mode the delay is taken from the Sync and from the request to the peer,
      whose clock need not agree with the master's: then half of how far the peer is ahead
      of the master is missing from the offset. */
  lemma RawTrustsPeer(v: TsValue, departure: int, offset: int, down: int, request: int, up: int, ahead: int)
    requires v.mode == RAW && v.ratio == 1.0 && v.t1 != 0 && v.t2 != 0 && v.t3 != 0
    requires v.t1 == departure && v.t2 == departure + down + offset
    requires v.t3 == request + offset && v.t4 == request + up + ahead
    ensures OffsetUpdate(v).Some?
    ensures var wrong := OffsetUpdate(v).value.offset - offset;
            -1 <= 2 * wrong - (down - up - ahead) <= 1
  {
  }
}
