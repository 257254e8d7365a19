/** What the messages that come in by one port of a bridge lead to at another. */
module TcPassage {
  import opened Octets
  import opened DataSets
  import opened Fsm
  import opened Lists
  import opened TransparentClock
  import opened TcMachine
  import opened TcRuns

  /** A Sync, or a Follow_Up, with this number and source. */
  predicate OfSync(sequenceId: U16, source: PortIdentity, e: BridgeEvent) {
    (e.SyncIn? || e.FollowUpIn?) && e.msg.sequenceId == sequenceId && e.msg.source == source
  }

  /** A Delay_Req with this number and source, or a response to it. */
  predicate OfRequest(sequenceId: U16, source: PortIdentity, e: BridgeEvent) {
    || (e.DelayReqIn? && e.msg.sequenceId == sequenceId && e.msg.source == source)
    || (e.DelayRespIn? && e.msg.sequenceId == sequenceId && e.msg.requesting == source)
  }

  /** What the events of one kind have to do with a key. */
  predicate OfKey(k: Key, e: BridgeEvent) {
    if k.SyncKey? then OfSync(k.sequenceId, k.source, e) else OfRequest(k.sequenceId, k.source, e)
  }

  /** A message that comes in is let through to port p at the end of a run. */
  predicate LetThrough(domain: U8, vs: seq<PortView>, es: seq<BridgeEvent>, e: BridgeEvent, p: nat)
    requires p < |vs|
  {
    var now := AfterEvents(domain, vs, es);
    !e.PortChange? && Sensible(e, |vs|) && !ViewBlocked(domain, now[e.q], now[p], e.msg)
  }

  lemma {:induction false} OtherLookups(domain: U8, vs: seq<PortView>, q: nat, m: Msg, n: nat, k: Key)
    requires q < |vs| && n <= |vs| && !OfKey(k, DelayRespIn(q, m))
    ensures Filter(Lookups(domain, vs, q, m, n), Concerning(k)) == []
  {
    hide ViewBlocked;
    if n > 0 {
      OtherLookups(domain, vs, q, m, n - 1, k);
      LookupsStep(domain, vs, q, m, n, k);
    }
  }

  lemma LookupsStep(domain: U8, vs: seq<PortView>, q: nat, m: Msg, n: nat, k: Key)
    requires q < |vs| && 0 < n <= |vs|
    ensures Filter(Lookups(domain, vs, q, m, n), Concerning(k)) ==
            Filter(Lookups(domain, vs, q, m, n - 1), Concerning(k))
            + if n - 1 == q || ViewBlocked(domain, vs[q], vs[n - 1], m) then []
              else Filter([Response(vs[n - 1].number, m)], Concerning(k))
  {
    hide ViewBlocked;
    var before := Lookups(domain, vs, q, m, n - 1);
    if n - 1 != q && !ViewBlocked(domain, vs[q], vs[n - 1], m) {
      FilterConcat(before, [Response(vs[n - 1].number, m)], Concerning(k));
    } else {
      assert before + [] == before;
    }
  }

  lemma FilterOne(t: Traffic, k: Key)
    ensures Filter([t], Concerning(k)) == if KeyOf(t) == k then [t] else []
  {
    FilterCons(t, [], Concerning(k));
    assert [t] + [] == [t];
  }

  /** Other events have nothing to do with the key. */
  lemma OtherEvent(domain: U8, vs: seq<PortView>, e: BridgeEvent, i: nat, k: Key)
    requires Sensible(e, |vs|) && i < |vs| && !OfKey(k, e)
    ensures Filter(TrafficOf(domain, vs, e, i), Concerning(k)) == []
  {
    hide ViewBlocked;
    match e
    case SyncIn(q, m, ingress, egress) =>
      var first, second := Syfup(vs[q].ingress, m.(twoStep := true), egress[i] - ingress), Syfup(vs[q].ingress, FollowUpOf(m), 0);
      FilterOne(first, k);
      FilterOne(second, k);
      FilterConcat([first], [second], Concerning(k));
      assert [first] + [] == [first];
    case FollowUpIn(q, m) => FilterOne(Syfup(vs[q].ingress, m, 0), k);
    case DelayReqIn(q, m, ingress, egress) => FilterOne(Request(vs[q].ingress, m, egress[i] - ingress), k);
    case DelayRespIn(q, m) => OtherLookups(domain, vs, q, m, |vs|, k);
    case PortChange(_, _, _, _) =>
  }

  lemma {:induction false} AfterConcat(domain: U8, vs: seq<PortView>, a: seq<BridgeEvent>, b: seq<BridgeEvent>)
    ensures AfterEvents(domain, vs, a + b) == AfterEvents(domain, AfterEvents(domain, vs, a), b)
  {
    hide AfterEvent;
    if b == [] {
      assert a + b == a;
    } else {
      assert (a + b)[..|a + b| - 1] == a + b[..|b| - 1];
      AfterConcat(domain, vs, a, b[..|b| - 1]);
    }
  }

  /** What a run that continues means for the list of port i, as far as one key goes. */
  function KeyTraffic(domain: U8, vs: seq<PortView>, es: seq<BridgeEvent>, i: nat, k: Key): seq<Traffic>
    requires i < |vs|
  {
    Filter(TrafficOn(domain, vs, es, i), Concerning(k))
  }

  /** One more event. */
  lemma KeyTrafficStep(domain: U8, vs: seq<PortView>, es: seq<BridgeEvent>, e: BridgeEvent, i: nat, k: Key)
    requires i < |vs|
    ensures KeyTraffic(domain, vs, es + [e], i, k) ==
            KeyTraffic(domain, vs, es, i, k)
            + if Sensible(e, |vs|) then Filter(TrafficOf(domain, AfterEvents(domain, vs, es), e, i), Concerning(k)) else []
  {
    hide TrafficOf, AfterEvents, Sensible;
    assert (es + [e])[..|es|] == es;
    var more := if Sensible(e, |vs|) then TrafficOf(domain, AfterEvents(domain, vs, es), e, i) else [];
    FilterConcat(TrafficOn(domain, vs, es, i), more, Concerning(k));
  }

  /** Events that have nothing to do with the key add nothing. */
  lemma {:induction false} KeyTrafficStays(domain: U8, vs: seq<PortView>, es: seq<BridgeEvent>, more: seq<BridgeEvent>, i: nat, k: Key)
    requires i < |vs| && forall e | e in more :: !OfKey(k, e)
    ensures KeyTraffic(domain, vs, es + more, i, k) == KeyTraffic(domain, vs, es, i, k)
  {
    hide KeyTraffic, TrafficOf, AfterEvents, Sensible, OfKey;
    if more == [] {
      assert es + more == es;
    } else {
      var n := |more| - 1;
      assert es + more == (es + more[..n]) + [more[n]];
      KeyTrafficStays(domain, vs, es, more[..n], i, k);
      KeyTrafficStep(domain, vs, es + more[..n], more[n], i, k);
      if Sensible(more[n], |vs|) {
        OtherEvent(domain, AfterEvents(domain, vs, es + more[..n]), more[n], i, k);
      }
    }
  }

  lemma KeyTrafficNone(domain: U8, vs: seq<PortView>, i: nat, k: Key)
    requires i < |vs|
    ensures KeyTraffic(domain, vs, [], i, k) == []
  {
  }

  /** Among events that have nothing to do with a key, two that each mean one thing. */
  lemma KeyTrafficOfTwo(
    domain: U8, vs: seq<PortView>, a: seq<BridgeEvent>, e: BridgeEvent, b: seq<BridgeEvent>, f: BridgeEvent,
    c: seq<BridgeEvent>, i: nat, k: Key, s: Traffic, t: Traffic)
    requires i < |vs| && forall x | x in a + b + c :: !OfKey(k, x)
    requires Sensible(e, |vs|) && Filter(TrafficOf(domain, AfterEvents(domain, vs, a), e, i), Concerning(k)) == [s]
    requires Sensible(f, |vs|) && Filter(TrafficOf(domain, AfterEvents(domain, vs, a + [e] + b), f, i), Concerning(k)) == [t]
    ensures KeyTraffic(domain, vs, a + [e] + b + [f] + c, i, k) == [s, t]
  {
    hide KeyTraffic, TrafficOf, AfterEvents, Sensible, OfKey;
    KeyTrafficNone(domain, vs, i, k);
    KeyTrafficStays(domain, vs, [], a, i, k);
    assert [] + a == a;
    KeyTrafficStep(domain, vs, a, e, i, k);
    KeyTrafficStays(domain, vs, a + [e], b, i, k);
    KeyTrafficStep(domain, vs, a + [e] + b, f, i, k);
    KeyTrafficStays(domain, vs, a + [e] + b + [f], c, i, k);
  }

  // ---------------------------------------------------------------------
  // A Sync and its Follow_Up
  // ---------------------------------------------------------------------

  lemma {:induction false} NumberOf(domain: U8, vs: seq<PortView>, es: seq<BridgeEvent>, i: nat)
    requires WellNumbered(vs) && i < |vs|
    ensures AfterEvents(domain, vs, es)[i].number == i + 1 == AfterEvents(domain, vs, es)[i].ingress.number
  {
    StayNumbered(domain, vs, es);
  }

  /** What one of the two means for the list of the port it is let through to. */
  lemma SyncTraffic(domain: U8, vs: seq<PortView>, es: seq<BridgeEvent>, e: BridgeEvent, p: nat, k: Key)
    requires WellNumbered(vs) && p < |vs| && LetThrough(domain, vs, es, e, p)
    requires k.SyncKey? && OfKey(k, e) && k.ingressPort == e.q + 1 && (e.SyncIn? ==> e.msg.twoStep)
    ensures Filter(TrafficOf(domain, AfterEvents(domain, vs, es), e, p), Concerning(k))
         == [Syfup(AfterEvents(domain, vs, es)[e.q].ingress, e.msg, if e.SyncIn? then e.egress[p] - e.ingress else 0)]
  {
    hide ViewBlocked, AfterEvents;
    NumberOf(domain, vs, es, e.q);
    var t := Syfup(AfterEvents(domain, vs, es)[e.q].ingress, e.msg, if e.SyncIn? then e.egress[p] - e.ingress else 0);
    FilterOne(t, k);
    assert [t] + [] == [t];
  }

  /** A two-step Sync and its Follow_Up come in by port q, in either order, among any
      other messages, and when each comes in the ports let it through to port p: then
      port p sends one Follow_Up for them, corrected by the time the Sync took to leave
      by this port and by what port q knows of its link. */
  lemma PairCrossesBridge(
    domain: U8, vs: seq<PortView>, a: seq<BridgeEvent>, e: BridgeEvent, b: seq<BridgeEvent>, f: BridgeEvent,
    c: seq<BridgeEvent>, p: nat, q: nat, sync: Msg, fup: Msg, arrived: int, left: seq<int>)
    requires WellNumbered(vs) && p < |vs| && q < |vs|
    requires sync.twoStep && fup.sequenceId == sync.sequenceId && fup.source == sync.source
    requires || (e == SyncIn(q, sync, arrived, left) && f == FollowUpIn(q, fup))
             || (e == FollowUpIn(q, fup) && f == SyncIn(q, sync, arrived, left))
    requires LetThrough(domain, vs, a, e, p) && LetThrough(domain, vs, a + [e] + b, f, p)
    requires AfterEvents(domain, vs, a)[q].ingress == AfterEvents(domain, vs, a + [e] + b)[q].ingress
    requires forall x | x in a + b + c :: !OfSync(sync.sequenceId, sync.source, x)
    requires Filter(vs[p].stored, StoredFor(SyncKey(q + 1, sync.sequenceId, sync.source))) == []
    ensures var of := FollowUpsOf(sync.sequenceId, sync.source);
            Filter(AfterEvents(domain, vs, a + [e] + b + [f] + c)[p].sent, of)
            == Filter(vs[p].sent, of) + [Forwarded(AfterEvents(domain, vs, a)[q].ingress, fup, left[p] - arrived)]
  {
    hide ViewBlocked, AfterEvents, TrafficOf, TrafficOn, Forwarded;
    var k := SyncKey(q + 1, sync.sequenceId, sync.source);
    var ingress := AfterEvents(domain, vs, a)[q].ingress;
    var es := a + [e] + b + [f] + c;
    SyncTraffic(domain, vs, a, e, p, k);
    SyncTraffic(domain, vs, a + [e] + b, f, p, k);
    var s := Syfup(ingress, e.msg, if e.SyncIn? then left[p] - arrived else 0);
    var t := Syfup(ingress, f.msg, if f.SyncIn? then left[p] - arrived else 0);
    KeyTrafficOfTwo(domain, vs, a, e, b, f, c, p, k, s, t);
    forall x | x in es ensures SyncsEnterBy(q, sync.sequenceId, sync.source, x) {
      assert x in a + b + c || x == e || x == f;
    }
    NumberOf(domain, vs, a, q);
    PairIsSent(domain, vs, es, p, q, ingress, sync, fup, left[p] - arrived, 0);
  }

  // ---------------------------------------------------------------------
  // A Delay_Req and its response
  // ---------------------------------------------------------------------

  /** The response is looked for once for the port that the request came in by. */
  lemma {:induction false} OwnLookup(domain: U8, vs: seq<PortView>, p: nat, q: nat, m: Msg, n: nat, k: Key)
    requires WellNumbered(vs) && p < |vs| && q < |vs| && p != q && n <= |vs|
    requires k == DelayKey(p + 1, m.sequenceId, m.requesting) && !ViewBlocked(domain, vs[q], vs[p], m)
    ensures Filter(Lookups(domain, vs, q, m, n), Concerning(k)) == if n > p then [Response(p + 1, m)] else []
  {
    hide ViewBlocked, Lookups, Filter, WellNumbered;
    if n == 0 {
      NoLookup(domain, vs, q, m, k);
    } else {
      OwnLookup(domain, vs, p, q, m, n - 1, k);
      OneMoreLookup(domain, vs, p, q, m, n, k);
    }
  }

  lemma NoLookup(domain: U8, vs: seq<PortView>, q: nat, m: Msg, k: Key)
    requires q < |vs|
    ensures Filter(Lookups(domain, vs, q, m, 0), Concerning(k)) == []
  {
  }

  lemma OneMoreLookup(domain: U8, vs: seq<PortView>, p: nat, q: nat, m: Msg, n: nat, k: Key)
    requires WellNumbered(vs) && p < |vs| && q < |vs| && p != q && 0 < n <= |vs|
    requires k == DelayKey(p + 1, m.sequenceId, m.requesting) && !ViewBlocked(domain, vs[q], vs[p], m)
    ensures Filter(Lookups(domain, vs, q, m, n), Concerning(k)) ==
            Filter(Lookups(domain, vs, q, m, n - 1), Concerning(k)) + if n - 1 == p then [Response(p + 1, m)] else []
  {
    hide ViewBlocked, Lookups, Filter;
    LookupsStep(domain, vs, q, m, n, k);
    FilterOne(Response(vs[n - 1].number, m), k);
    assert vs[n - 1].number == n;
  }

  lemma RequestTraffic(domain: U8, vs: seq<PortView>, es: seq<BridgeEvent>, e: BridgeEvent, q: nat, k: Key)
    requires WellNumbered(vs) && q < |vs| && LetThrough(domain, vs, es, e, q)
    requires e.DelayReqIn? && k == DelayKey(e.q + 1, e.msg.sequenceId, e.msg.source)
    ensures Filter(TrafficOf(domain, AfterEvents(domain, vs, es), e, q), Concerning(k))
         == [Request(AfterEvents(domain, vs, es)[e.q].ingress, e.msg, e.egress[q] - e.ingress)]
  {
    hide ViewBlocked, AfterEvents;
    NumberOf(domain, vs, es, e.q);
    FilterOne(Request(AfterEvents(domain, vs, es)[e.q].ingress, e.msg, e.egress[q] - e.ingress), k);
  }

  lemma ResponseTraffic(domain: U8, vs: seq<PortView>, es: seq<BridgeEvent>, e: BridgeEvent, p: nat, k: Key)
    requires WellNumbered(vs) && p < |vs| && LetThrough(domain, vs, es, e, p)
    requires e.DelayRespIn? && e.q != p && k == DelayKey(p + 1, e.msg.sequenceId, e.msg.requesting)
    ensures Filter(TrafficOf(domain, AfterEvents(domain, vs, es), e, e.q), Concerning(k)) == [Response(p + 1, e.msg)]
  {
    hide ViewBlocked, AfterEvents;
    StayNumbered(domain, vs, es);
    OwnLookup(domain, AfterEvents(domain, vs, es), p, e.q, e.msg, |vs|, k);
  }

  /** A Delay_Req comes in by port p and is let through to port q, and a response to
      it comes in by port q and is let through to port p, among any other messages:
      port p sends that response once, corrected by the time the request took to leave
      by port q. */
  lemma ResponseCrossesBridge(
    domain: U8, vs: seq<PortView>, a: seq<BridgeEvent>, b: seq<BridgeEvent>, c: seq<BridgeEvent>, p: nat, q: nat,
    req: Msg, resp: Msg, arrived: int, left: seq<int>)
    requires WellNumbered(vs) && p < |vs| && q < |vs| && p != q
    requires resp.sequenceId == req.sequenceId && resp.requesting == req.source
    requires var e, f := DelayReqIn(p, req, arrived, left), DelayRespIn(q, resp);
             LetThrough(domain, vs, a, e, q) && LetThrough(domain, vs, a + [e] + b, f, p)
    requires forall x | x in a + b + c :: !OfRequest(req.sequenceId, req.source, x)
    requires Filter(vs[q].stored, StoredFor(DelayKey(p + 1, req.sequenceId, req.source))) == []
    ensures var e, f := DelayReqIn(p, req, arrived, left), DelayRespIn(q, resp);
            var of := ResponsesTo(req.sequenceId, req.source);
            Filter(AfterEvents(domain, vs, a + [e] + b + [f] + c)[p].sent, of)
            == Filter(vs[p].sent, of) + [resp.(correction := resp.correction + ToTimeInterval(left[q] - arrived))]
  {
    hide ViewBlocked, AfterEvents, TrafficOf, TrafficOn;
    var e, f := DelayReqIn(p, req, arrived, left), DelayRespIn(q, resp);
    var k := DelayKey(p + 1, req.sequenceId, req.source);
    var ingress := AfterEvents(domain, vs, a)[p].ingress;
    var es := a + [e] + b + [f] + c;
    RequestTraffic(domain, vs, a, e, q, k);
    ResponseTraffic(domain, vs, a + [e] + b, f, p, k);
    KeyTrafficOfTwo(domain, vs, a, e, b, f, c, q, k, Request(ingress, req, left[q] - arrived), Response(p + 1, resp));
    forall x | x in es ensures ResponsesEnterBy(q, req.sequenceId, req.source, x) {
      assert x in a + b + c || x == e || x == f;
    }
    NumberOf(domain, vs, a, p);
    ResponseIsSent(domain, vs, es, p, q, ingress, req, resp, left[q] - arrived);
  }
}
