/** What a bridge of transparent clock ports does over a run of messages, port by
    port. */
module TcRuns {
  import opened Octets
  import opened DataSets
  import opened Fsm
  import opened Lists
  import opened TransparentClock
  import opened TcMachine

  /** What can happen to a bridge: a message comes in by port q, and event messages
      are time stamped when they come in and when they leave by each port; or a port
      changes its state or what it knows of its link. */
  datatype BridgeEvent =
    | SyncIn(q: nat, msg: Msg, ingress: int, egress: seq<int>)
    | FollowUpIn(q: nat, msg: Msg)
    | DelayReqIn(q: nat, msg: Msg, ingress: int, egress: seq<int>)
    | DelayRespIn(q: nat, msg: Msg)
    | PortChange(p: nat, state: PortState, peerDelay: int, asymmetry: int)

  /** The port exists, and the message is of the kind its handler is called with. */
  predicate Sensible(e: BridgeEvent, ports: nat) {
    match e
    case SyncIn(q, m, _, egress) => q < ports == |egress| && m.kind == SYNC
    case FollowUpIn(q, m) => q < ports && m.kind == FOLLOW_UP
    case DelayReqIn(q, m, _, egress) => q < ports == |egress| && m.kind == DELAY_REQ
    case DelayRespIn(q, m) => q < ports && m.kind == DELAY_RESP
    case PortChange(p, _, _, _) => p < ports
  }

  /** Port i after an event. */
  function PortAfter(domain: U8, vs: seq<PortView>, e: BridgeEvent, i: nat): PortView
    requires Sensible(e, |vs|) && i < |vs|
  {
    match e
    case SyncIn(q, m, ingress, egress) => AfterSync(domain, vs[q], vs[i], m, egress[i] - ingress)
    case FollowUpIn(q, m) => AfterForward(domain, vs[q], vs[i], m, 0)
    case DelayReqIn(q, m, ingress, egress) =>
      AfterForward(domain, vs[q], AfterSend(domain, vs[q], vs[i], m), m, egress[i] - ingress)
    case DelayRespIn(q, m) =>
      if i == q then vs[q].(stored := Consumed(domain, vs, q, m, |vs|)) else AfterAnswer(domain, vs[q], vs[i], m)
    case PortChange(p, state, peerDelay, asymmetry) =>
      if i == p then vs[i].(state := state, ingress := Ingress(vs[i].number, peerDelay, asymmetry)) else vs[i]
  }

  function AfterEvent(domain: U8, vs: seq<PortView>, e: BridgeEvent): (r: seq<PortView>)
    ensures |r| == |vs|
  {
    if Sensible(e, |vs|) then seq(|vs|, i requires 0 <= i < |vs| => PortAfter(domain, vs, e, i)) else vs
  }

  function AfterEvents(domain: U8, vs: seq<PortView>, es: seq<BridgeEvent>): (r: seq<PortView>)
    ensures |r| == |vs|
  {
    if es == [] then vs
    else AfterEvent(domain, AfterEvents(domain, vs, es[..|es| - 1]), es[|es| - 1])
  }

  predicate Changes(e: BridgeEvent, p: nat) {
    e.PortChange? && e.p == p
  }

  /** Port p is as the last change of it, the event k, has set it. */
  predicate SetBy(v: PortView, number: nat, e: BridgeEvent)
    requires e.PortChange?
  {
    v.state == e.state && v.ingress == Ingress(number, e.peerDelay, e.asymmetry)
  }

  /** The state of a port, its peer delay and its asymmetry are those of its last change:
      messages leave them alone. */
  lemma {:induction false} SettingsOverRun(domain: U8, vs: seq<PortView>, es: seq<BridgeEvent>, p: nat)
    requires p < |vs| && vs[p].ingress.number == vs[p].number
    ensures var w := AfterEvents(domain, vs, es)[p];
            && w.number == vs[p].number && w.spanningTree == vs[p].spanningTree
            && ((forall k | 0 <= k < |es| :: !Changes(es[k], p)) ==> w.state == vs[p].state && w.ingress == vs[p].ingress)
            && (forall k | 0 <= k < |es| && Changes(es[k], p) && (forall l | k < l < |es| :: !Changes(es[l], p)) ::
                  SetBy(w, vs[p].number, es[k]))
  {
    hide AfterEvent;
    if es != [] {
      var before := es[..|es| - 1];
      SettingsOverRun(domain, vs, before, p);
      assert forall k | 0 <= k < |before| :: before[k] == es[k];
      EventSettings(domain, AfterEvents(domain, vs, before), es[|es| - 1], p);
    }
  }

  lemma EventSettings(domain: U8, vs: seq<PortView>, e: BridgeEvent, p: nat)
    requires p < |vs|
    ensures var v, w := vs[p], AfterEvent(domain, vs, e)[p];
            && w.number == v.number && w.spanningTree == v.spanningTree
            && if Changes(e, p) then SetBy(w, v.number, e) else w.state == v.state && w.ingress == v.ingress
  {
    hide Handle, Consumed, TransparentClock.CompleteResponse;
  }

  /** The responses that are looked for in the list of port q, for the first n ports. */
  function Lookups(domain: U8, vs: seq<PortView>, q: nat, m: Msg, n: nat): seq<Traffic>
    requires q < |vs| && n <= |vs|
  {
    if n == 0 then []
    else
      Lookups(domain, vs, q, m, n - 1)
      + if n - 1 == q || ViewBlocked(domain, vs[q], vs[n - 1], m) then [] else [Response(vs[n - 1].number, m)]
  }

  /** What an event means for the list of port i. */
  function TrafficOf(domain: U8, vs: seq<PortView>, e: BridgeEvent, i: nat): seq<Traffic>
    requires Sensible(e, |vs|) && i < |vs|
  {
    match e
    case SyncIn(q, m, ingress, egress) =>
      if ViewBlocked(domain, vs[q], vs[i], m) then []
      else
        [Syfup(vs[q].ingress, m.(twoStep := true), egress[i] - ingress)]
        + if m.twoStep then [] else [Syfup(vs[q].ingress, FollowUpOf(m), 0)]
    case FollowUpIn(q, m) => if ViewBlocked(domain, vs[q], vs[i], m) then [] else [Syfup(vs[q].ingress, m, 0)]
    case DelayReqIn(q, m, ingress, egress) =>
      if ViewBlocked(domain, vs[q], vs[i], m) then [] else [Request(vs[q].ingress, m, egress[i] - ingress)]
    case DelayRespIn(q, m) => if i == q then Lookups(domain, vs, q, m, |vs|) else []
    case PortChange(_, _, _, _) => []
  }

  /** What a run means for the list of port i. */
  function TrafficOn(domain: U8, vs: seq<PortView>, es: seq<BridgeEvent>, i: nat): seq<Traffic>
    requires i < |vs|
  {
    if es == [] then []
    else
      var before, e := es[..|es| - 1], es[|es| - 1];
      TrafficOn(domain, vs, before, i)
      + if Sensible(e, |vs|) then TrafficOf(domain, AfterEvents(domain, vs, before), e, i) else []
  }

  // ---------------------------------------------------------------------
  // Lists
  // ---------------------------------------------------------------------

  lemma {:induction false} HandleAllConcat(list: seq<Txd>, a: seq<Traffic>, b: seq<Traffic>)
    ensures HandleAll(list, a + b).0 == HandleAll(HandleAll(list, a).0, b).0
    decreases a
  {
    if a == [] {
      assert a + b == b;
    } else {
      assert a == [a[0]] + a[1..] && a + b == [a[0]] + (a[1..] + b);
      HandleAllConcat(Handle(list, a[0]).0, a[1..], b);
      HandleAllCons(list, a[0], a[1..]);
      HandleAllCons(list, a[0], a[1..] + b);
    }
  }

  lemma HandleNone(list: seq<Txd>)
    ensures HandleAll(list, []).0 == list
  {
  }

  lemma HandleOne(list: seq<Txd>, e: Traffic)
    ensures HandleAll(list, [e]).0 == Handle(list, e).0
  {
    HandleAllCons(list, e, []);
    assert [e] + [] == [e];
  }

  lemma HandleTwo(list: seq<Txd>, e: Traffic, f: Traffic)
    ensures HandleAll(list, [e] + [f]).0 == Handle(Handle(list, e).0, f).0
  {
    HandleAllCons(list, e, [f]);
    HandleOne(Handle(list, e).0, f);
  }

  lemma {:induction false} LookupsHandled(domain: U8, vs: seq<PortView>, q: nat, m: Msg, n: nat)
    requires q < |vs| && n <= |vs|
    ensures HandleAll(vs[q].stored, Lookups(domain, vs, q, m, n)).0 == Consumed(domain, vs, q, m, n)
  {
    if n > 0 {
      LookupsHandled(domain, vs, q, m, n - 1);
      var before := Lookups(domain, vs, q, m, n - 1);
      if n - 1 == q || ViewBlocked(domain, vs[q], vs[n - 1], m) {
        assert before + [] == before;
      } else {
        HandleAllConcat(vs[q].stored, before, [Response(vs[n - 1].number, m)]);
        HandleOne(Consumed(domain, vs, q, m, n - 1), Response(vs[n - 1].number, m));
      }
    }
  }

  lemma SyncHandled(domain: U8, q: PortView, p: PortView, m: Msg, residence: int)
    requires m.kind == SYNC && !ViewBlocked(domain, q, p, m)
    ensures AfterSync(domain, q, p, m, residence).stored ==
            var l := Handle(p.stored, EventOf(q.ingress, m.(twoStep := true), residence)).0;
            if m.twoStep then l else Handle(l, EventOf(q.ingress, FollowUpOf(m), 0)).0
  {
  }

  lemma EventHandled(domain: U8, vs: seq<PortView>, e: BridgeEvent, i: nat)
    requires Sensible(e, |vs|) && i < |vs|
    ensures PortAfter(domain, vs, e, i).stored == HandleAll(vs[i].stored, TrafficOf(domain, vs, e, i)).0
  {
    hide Handle, HandleAll;
    var list := vs[i].stored;
    HandleNone(list);
    match e
    case SyncIn(q, m, ingress, egress) =>
      if !ViewBlocked(domain, vs[q], vs[i], m) {
        var first := Syfup(vs[q].ingress, m.(twoStep := true), egress[i] - ingress);
        SyncHandled(domain, vs[q], vs[i], m, egress[i] - ingress);
        HandleOne(list, first);
        HandleTwo(list, first, Syfup(vs[q].ingress, FollowUpOf(m), 0));
        assert [first] + [] == [first];
      }
    case FollowUpIn(q, m) => HandleOne(list, Syfup(vs[q].ingress, m, 0));
    case DelayReqIn(q, m, ingress, egress) => HandleOne(list, Request(vs[q].ingress, m, egress[i] - ingress));
    case DelayRespIn(q, m) =>
      if i == q {
        LookupsHandled(domain, vs, q, m, |vs|);
      }
    case PortChange(_, _, _, _) =>
  }

  /** Over any run the list of each port is what handling its traffic leaves. */
  lemma {:induction false} RunHandled(domain: U8, vs: seq<PortView>, es: seq<BridgeEvent>, i: nat)
    requires i < |vs|
    ensures AfterEvents(domain, vs, es)[i].stored == HandleAll(vs[i].stored, TrafficOn(domain, vs, es, i)).0
  {
    if es != [] {
      var before, e := es[..|es| - 1], es[|es| - 1];
      RunHandled(domain, vs, before, i);
      var ws, traffic := AfterEvents(domain, vs, before), TrafficOn(domain, vs, before, i);
      if Sensible(e, |vs|) {
        EventHandled(domain, ws, e, i);
        HandleAllConcat(vs[i].stored, traffic, TrafficOf(domain, ws, e, i));
      } else {
        assert traffic + [] == traffic;
      }
    }
  }

  // ---------------------------------------------------------------------
  // Messages
  // ---------------------------------------------------------------------

  function FollowUpsOf(sequenceId: U16, source: PortIdentity): Msg -> bool {
    (m: Msg) => m.kind == FOLLOW_UP && m.sequenceId == sequenceId && m.source == source
  }

  function ResponsesTo(sequenceId: U16, requesting: PortIdentity): Msg -> bool {
    (m: Msg) => m.kind == DELAY_RESP && m.sequenceId == sequenceId && m.requesting == requesting
  }

  /** Syncs and Follow_Ups of a source and number come in by port q only. */
  predicate SyncsEnterBy(q: nat, sequenceId: U16, source: PortIdentity, e: BridgeEvent) {
    (e.SyncIn? || e.FollowUpIn?) && e.msg.sequenceId == sequenceId && e.msg.source == source ==> e.q == q
  }

  predicate ResponsesEnterBy(q: nat, sequenceId: U16, requesting: PortIdentity, e: BridgeEvent) {
    e.DelayRespIn? && e.msg.sequenceId == sequenceId && e.msg.requesting == requesting ==> e.q == q
  }

  /** Ports are numbered from one and give their own number when a message comes in. */
  ghost predicate WellNumbered(vs: seq<PortView>) {
    Numbered(vs) && forall i | 0 <= i < |vs| :: vs[i].ingress.number == i + 1
  }

  lemma StaysNumbered(domain: U8, vs: seq<PortView>, e: BridgeEvent)
    requires WellNumbered(vs)
    ensures WellNumbered(AfterEvent(domain, vs, e))
  {
    if Sensible(e, |vs|) {
      forall i | 0 <= i < |vs|
        ensures PortAfter(domain, vs, e, i).number == i + 1 == PortAfter(domain, vs, e, i).ingress.number
      {
      }
    }
  }

  lemma {:induction false} StayNumbered(domain: U8, vs: seq<PortView>, es: seq<BridgeEvent>)
    requires WellNumbered(vs)
    ensures WellNumbered(AfterEvents(domain, vs, es))
  {
    if es != [] {
      StayNumbered(domain, vs, es[..|es| - 1]);
      StaysNumbered(domain, AfterEvents(domain, vs, es[..|es| - 1]), es[|es| - 1]);
    }
  }

  lemma {:induction false} SentForConcat(k: Key, list: seq<Txd>, a: seq<Traffic>, b: seq<Traffic>)
    ensures SentFor(k, list, a + b) == SentFor(k, list, a) + SentFor(k, HandleAll(list, a).0, b)
    decreases a
  {
    hide Handle, HandleAll;
    if a == [] {
      assert a + b == b;
      HandleNone(list);
    } else {
      assert a == [a[0]] + a[1..] && (a + b)[1..] == a[1..] + b && (a + b)[0] == a[0];
      SentForConcat(k, Handle(list, a[0]).0, a[1..], b);
      HandleAllCons(list, a[0], a[1..]);
    }
  }

  lemma SentForNone(k: Key, list: seq<Txd>)
    ensures SentFor(k, list, []) == []
  {
  }

  lemma SentForOne(k: Key, list: seq<Txd>, e: Traffic)
    ensures SentFor(k, list, [e]) == if KeyOf(e) == k then Out(Handle(list, e).1) else []
  {
    assert [e][1..] == [];
  }

  lemma SentForTwo(k: Key, list: seq<Txd>, e: Traffic, f: Traffic)
    ensures SentFor(k, list, [e] + [f]) == SentFor(k, list, [e]) + SentFor(k, Handle(list, e).0, [f])
  {
    SentForConcat(k, list, [e], [f]);
    HandleOne(list, e);
  }

  /** What completes a Sync or Follow_Up carries its number and source. */
  lemma SentIsFollowUp(list: seq<Txd>, q: Ingress, m: Msg, residence: int)
    requires m.kind == SYNC || m.kind == FOLLOW_UP
    ensures var out := Handle(list, Syfup(q, m, residence)).1;
            out.Some? ==> FollowUpsOf(m.sequenceId, m.source)(out.value)
  {
  }

  lemma FilterOut(out: Option<Msg>, f: Msg -> bool)
    ensures Filter(Out(out), f) == if out.Some? && f(out.value) then Out(out) else []
  {
    if out.Some? {
      FilterCons(out.value, [], f);
      assert [out.value] + [] == [out.value];
    }
  }

  lemma FilterSent(sent: seq<Msg>, out: seq<Msg>, f: Msg -> bool)
    ensures Filter(sent + out, f) == Filter(sent, f) + Filter(out, f)
  {
    FilterConcat(sent, out, f);
  }

  /** One Sync or Follow_Up on the list of one port. */
  lemma SyfupSends(k: Key, list: seq<Txd>, sent: seq<Msg>, q: Ingress, m: Msg, residence: int)
    requires k.SyncKey? && (m.kind == SYNC || m.kind == FOLLOW_UP)
    requires m.sequenceId == k.sequenceId && m.source == k.source ==> q.number == k.ingressPort
    ensures var e := Syfup(q, m, residence);
            Filter(sent + Out(Handle(list, e).1), FollowUpsOf(k.sequenceId, k.source))
            == Filter(sent, FollowUpsOf(k.sequenceId, k.source)) + SentFor(k, list, [e])
  {
    var e, f := Syfup(q, m, residence), FollowUpsOf(k.sequenceId, k.source);
    SentIsFollowUp(list, q, m, residence);
    FilterSent(sent, Out(Handle(list, e).1), f);
    FilterOut(Handle(list, e).1, f);
    SentForOne(k, list, e);
  }

  lemma DroppedByFilter(sent: seq<Msg>, m: Msg, f: Msg -> bool)
    requires !f(m)
    ensures Filter(sent + [m], f) == Filter(sent, f)
  {
    FilterConcat(sent, [m], f);
    assert [m][1..] == [];
  }

  // ---------------------------------------------------------------------
  // Follow_Ups
  // ---------------------------------------------------------------------

  lemma {:induction false} LookupsSendNone(k: Key, list: seq<Txd>, domain: U8, vs: seq<PortView>, q: nat, m: Msg, n: nat)
    requires q < |vs| && n <= |vs| && (k.SyncKey? || m.sequenceId != k.sequenceId || m.requesting != k.source)
    ensures SentFor(k, list, Lookups(domain, vs, q, m, n)) == []
  {
    if n > 0 {
      LookupsSendNone(k, list, domain, vs, q, m, n - 1);
      var before := Lookups(domain, vs, q, m, n - 1);
      if n - 1 == q || ViewBlocked(domain, vs[q], vs[n - 1], m) {
        assert before + [] == before;
      } else {
        SentForConcat(k, list, before, [Response(vs[n - 1].number, m)]);
        SentForOne(k, HandleAll(list, before).0, Response(vs[n - 1].number, m));
      }
    }
  }

  lemma SyncSends(domain: U8, k: Key, q: PortView, p: PortView, m: Msg, residence: int)
    requires k.SyncKey? && m.kind == SYNC && !ViewBlocked(domain, q, p, m)
    requires m.sequenceId == k.sequenceId && m.source == k.source ==> q.ingress.number == k.ingressPort
    ensures var first := Syfup(q.ingress, m.(twoStep := true), residence);
            var second := Syfup(q.ingress, FollowUpOf(m), 0);
            Filter(AfterSync(domain, q, p, m, residence).sent, FollowUpsOf(k.sequenceId, k.source))
            == Filter(p.sent, FollowUpsOf(k.sequenceId, k.source))
               + SentFor(k, p.stored, [first] + if m.twoStep then [] else [second])
  {
    var m', f := m.(twoStep := true), FollowUpsOf(k.sequenceId, k.source);
    var first, second := Syfup(q.ingress, m', residence), Syfup(q.ingress, FollowUpOf(m), 0);
    DroppedByFilter(p.sent, m', f);
    SyfupSends(k, p.stored, p.sent + [m'], q.ingress, m', residence);
    if m.twoStep {
      assert [first] + [] == [first];
    } else {
      var l1, sent1 := Handle(p.stored, first).0, p.sent + [m'] + Out(Handle(p.stored, first).1);
      SyfupSends(k, l1, sent1, q.ingress, FollowUpOf(m), 0);
      SentForTwo(k, p.stored, first, second);
      Regrouped(Filter(p.sent, f), SentFor(k, p.stored, [first]), SentFor(k, l1, [second]));
    }
  }

  lemma Regrouped<T>(a: seq<T>, b: seq<T>, c: seq<T>)
    ensures a + (b + c) == a + b + c && a + [] == a
  {
  }

  /** From p to p' a port has sent, of the messages in f, what its traffic gives for k. */
  ghost predicate SendsAs(k: Key, f: Msg -> bool, p: PortView, p': PortView, list: seq<Txd>, traffic: seq<Traffic>) {
    Filter(p'.sent, f) == Filter(p.sent, f) + SentFor(k, list, traffic)
  }

  lemma SendsNothing(k: Key, f: Msg -> bool, p: PortView, p': PortView, list: seq<Txd>, traffic: seq<Traffic>)
    requires Filter(p'.sent, f) == Filter(p.sent, f) && SentFor(k, list, traffic) == []
    ensures SendsAs(k, f, p, p', list, traffic)
  {
    Regrouped(Filter(p.sent, f), [], []);
  }

  lemma ForwardedFollowUp(domain: U8, k: Key, q: PortView, p: PortView, m: Msg)
    requires k.SyncKey? && m.kind == FOLLOW_UP && !ViewBlocked(domain, q, p, m)
    requires m.sequenceId == k.sequenceId && m.source == k.source ==> q.ingress.number == k.ingressPort
    ensures SendsAs(k, FollowUpsOf(k.sequenceId, k.source), p, AfterForward(domain, q, p, m, 0), p.stored, [Syfup(q.ingress, m, 0)])
  {
    SyfupSends(k, p.stored, p.sent, q.ingress, m, 0);
  }

  /** A Delay_Req that is forwarded is neither a Follow_Up nor a response. */
  lemma ForwardedRequest(domain: U8, k: Key, f: Msg -> bool, q: PortView, p: PortView, m: Msg, residence: int)
    requires m.kind == DELAY_REQ && !f(m) && !ViewBlocked(domain, q, p, m)
    ensures var p' := AfterForward(domain, q, AfterSend(domain, q, p, m), m, residence);
            Filter(p'.sent, f) == Filter(p.sent, f)
  {
    DroppedByFilter(p.sent, m, f);
    Regrouped(p.sent + [m], [], []);
  }

  lemma RequestSendsNone(k: Key, list: seq<Txd>, q: Ingress, m: Msg, residence: int)
    ensures SentFor(k, list, [Request(q, m, residence)]) == []
  {
    SentForOne(k, list, Request(q, m, residence));
  }

  lemma AnswersAreResponses(domain: U8, f: Msg -> bool, q: PortView, p: PortView, m: Msg)
    requires forall c: int :: !f(m.(correction := c))
    ensures Filter(AfterAnswer(domain, q, p, m).sent, f) == Filter(p.sent, f)
  {
    var out := TransparentClock.CompleteResponse(q.stored, p.number, m).1;
    if out.Some? {
      DroppedByFilter(p.sent, out.value, f);
    } else {
      Regrouped(p.sent, [], []);
    }
  }

  /** Nothing happens to a port that is blocked. */
  lemma BlockedStays(domain: U8, q: PortView, p: PortView, m: Msg, residence: int)
    requires ViewBlocked(domain, q, p, m)
    ensures m.kind == SYNC ==> AfterSync(domain, q, p, m, residence) == p
    ensures AfterForward(domain, q, p, m, residence) == p
    ensures AfterForward(domain, q, AfterSend(domain, q, p, m), m, residence) == p
  {
  }

  lemma FollowUpSends(domain: U8, vs: seq<PortView>, e: BridgeEvent, i: nat, q: nat, k: Key)
    requires Sensible(e, |vs|) && i < |vs| && q < |vs| && WellNumbered(vs)
    requires k.SyncKey? && k.ingressPort == q + 1 && SyncsEnterBy(q, k.sequenceId, k.source, e)
    ensures SendsAs(k, FollowUpsOf(k.sequenceId, k.source), vs[i], PortAfter(domain, vs, e, i), vs[i].stored,
                    TrafficOf(domain, vs, e, i))
  {
    hide Handle, HandleAll, Filter, SentFor, AfterSync, AfterForward, AfterSend, AfterAnswer, ViewBlocked, Lookups;
    SentForNone(k, vs[i].stored);
    var p, f, p', traffic := vs[i], FollowUpsOf(k.sequenceId, k.source), PortAfter(domain, vs, e, i), TrafficOf(domain, vs, e, i);
    match e
    case SyncIn(x, m, ingress, egress) =>
      if ViewBlocked(domain, vs[x], p, m) {
        BlockedStays(domain, vs[x], p, m, egress[i] - ingress);
        SendsNothing(k, f, p, p', p.stored, traffic);
      } else {
        SyncSends(domain, k, vs[x], p, m, egress[i] - ingress);
      }
    case FollowUpIn(x, m) =>
      if ViewBlocked(domain, vs[x], p, m) {
        BlockedStays(domain, vs[x], p, m, 0);
        SendsNothing(k, f, p, p', p.stored, traffic);
      } else {
        ForwardedFollowUp(domain, k, vs[x], p, m);
      }
    case DelayReqIn(x, m, ingress, egress) =>
      if ViewBlocked(domain, vs[x], p, m) {
        BlockedStays(domain, vs[x], p, m, egress[i] - ingress);
      } else {
        ForwardedRequest(domain, k, f, vs[x], p, m, egress[i] - ingress);
        RequestSendsNone(k, p.stored, vs[x].ingress, m, egress[i] - ingress);
      }
      SendsNothing(k, f, p, p', p.stored, traffic);
    case DelayRespIn(x, m) =>
      LookupsSendNone(k, p.stored, domain, vs, x, m, |vs|);
      AnswersAreResponses(domain, f, vs[x], p, m);
      SendsNothing(k, f, p, p', p.stored, traffic);
    case PortChange(_, _, _, _) =>
      SendsNothing(k, f, p, p', p.stored, traffic);
  }

  /** Over any run the Follow_Ups that a port sends for a Sync are those that its
      list gives when it handles the traffic of the port. */
  lemma {:induction false} RunSendsFollowUps(domain: U8, vs: seq<PortView>, es: seq<BridgeEvent>, i: nat, q: nat, k: Key)
    requires i < |vs| && q < |vs| && WellNumbered(vs) && k.SyncKey? && k.ingressPort == q + 1
    requires forall e | e in es :: SyncsEnterBy(q, k.sequenceId, k.source, e)
    ensures var f := FollowUpsOf(k.sequenceId, k.source);
            Filter(AfterEvents(domain, vs, es)[i].sent, f)
            == Filter(vs[i].sent, f) + SentFor(k, vs[i].stored, TrafficOn(domain, vs, es, i))
  {
    Regrouped(Filter(vs[i].sent, FollowUpsOf(k.sequenceId, k.source)), [], []);
    if es != [] {
      var before, e := es[..|es| - 1], es[|es| - 1];
      RunSendsFollowUps(domain, vs, before, i, q, k);
      var ws, traffic := AfterEvents(domain, vs, before), TrafficOn(domain, vs, before, i);
      if Sensible(e, |vs|) {
        StayNumbered(domain, vs, before);
        FollowUpSends(domain, ws, e, i, q, k);
        RunHandled(domain, vs, before, i);
        var more := TrafficOf(domain, ws, e, i);
        SentForConcat(k, vs[i].stored, traffic, more);
        Regrouped(Filter(vs[i].sent, FollowUpsOf(k.sequenceId, k.source)), SentFor(k, vs[i].stored, traffic),
                  SentFor(k, ws[i].stored, more));
      } else {
        Regrouped(traffic, [], []);
      }
    }
  }

  // ---------------------------------------------------------------------
  // Responses
  // ---------------------------------------------------------------------

  /** The answer to port p, whenever its turn comes. */
  lemma LookupSends(k: Key, domain: U8, vs: seq<PortView>, q: nat, p: nat, m: Msg, n: nat)
    requires q < |vs| && p < |vs| && p != q && n < |vs| && WellNumbered(vs)
    requires k == DelayKey(p + 1, m.sequenceId, m.requesting)
    ensures SentFor(k, Consumed(domain, vs, q, m, n), [Response(vs[n].number, m)])
         == if n == p then Out(TransparentClock.CompleteResponse(vs[q].stored, vs[p].number, m).1) else []
  {
    SentForOne(k, Consumed(domain, vs, q, m, n), Response(vs[n].number, m));
    if n == p {
      AnswerIsOwn(domain, vs, q, m, n, p);
    }
  }

  lemma NextLookup(k: Key, domain: U8, vs: seq<PortView>, q: nat, p: nat, m: Msg, i: nat, n: nat)
    requires q < |vs| && p < |vs| && p != q && i < n <= |vs| && n == i + 1 && WellNumbered(vs)
    requires k == DelayKey(p + 1, m.sequenceId, m.requesting)
    requires i != q && !ViewBlocked(domain, vs[q], vs[i], m)
    ensures SentFor(k, vs[q].stored, Lookups(domain, vs, q, m, n))
         == SentFor(k, vs[q].stored, Lookups(domain, vs, q, m, i))
            + if i == p then Out(TransparentClock.CompleteResponse(vs[q].stored, vs[p].number, m).1) else []
  {
    hide Handle, HandleAll, SentFor, Consumed, TransparentClock.CompleteResponse;
    var before := Lookups(domain, vs, q, m, i);
    LookupsHandled(domain, vs, q, m, i);
    SentForConcat(k, vs[q].stored, before, [Response(vs[i].number, m)]);
    LookupSends(k, domain, vs, q, p, m, i);
  }

  lemma {:induction false} LookupsSend(k: Key, domain: U8, vs: seq<PortView>, q: nat, p: nat, m: Msg, n: nat)
    requires q < |vs| && p < |vs| && p != q && n <= |vs| && WellNumbered(vs)
    requires k == DelayKey(p + 1, m.sequenceId, m.requesting)
    ensures SentFor(k, vs[q].stored, Lookups(domain, vs, q, m, n))
         == if p < n && !ViewBlocked(domain, vs[q], vs[p], m) then
              Out(TransparentClock.CompleteResponse(vs[q].stored, vs[p].number, m).1)
            else []
  {
    hide TransparentClock.CompleteResponse, Handle, HandleAll, SentFor, ViewBlocked, WellNumbered;
    if n == 0 {
      SentForNone(k, vs[q].stored);
    } else {
      LookupsSend(k, domain, vs, q, p, m, n - 1);
      if n - 1 == q || ViewBlocked(domain, vs[q], vs[n - 1], m) {
        Regrouped(Lookups(domain, vs, q, m, n - 1), [], []);
      } else {
        NextLookup(k, domain, vs, q, p, m, n - 1, n);
      }
    }
  }

  lemma SyncIsNoResponse(domain: U8, q: PortView, p: PortView, m: Msg, residence: int, f: Msg -> bool)
    requires m.kind == SYNC && forall x: Msg | f(x) :: x.kind == DELAY_RESP
    ensures Filter(AfterSync(domain, q, p, m, residence).sent, f) == Filter(p.sent, f)
  {
    if !ViewBlocked(domain, q, p, m) {
      var m' := m.(twoStep := true);
      var first := Handle(p.stored, Syfup(q.ingress, m', residence));
      DroppedByFilter(p.sent, m', f);
      NoResponse(p.stored, p.sent + [m'], q.ingress, m', residence, f);
      if !m.twoStep {
        NoResponse(first.0, p.sent + [m'] + Out(first.1), q.ingress, FollowUpOf(m), 0, f);
      }
    }
  }

  lemma FollowUpIsNoResponse(domain: U8, q: PortView, p: PortView, m: Msg, f: Msg -> bool)
    requires m.kind == FOLLOW_UP && forall x: Msg | f(x) :: x.kind == DELAY_RESP
    ensures Filter(AfterForward(domain, q, p, m, 0).sent, f) == Filter(p.sent, f)
  {
    NoResponse(p.stored, p.sent, q.ingress, m, 0, f);
  }

  lemma NoResponse(list: seq<Txd>, sent: seq<Msg>, q: Ingress, m: Msg, residence: int, f: Msg -> bool)
    requires (m.kind == SYNC || m.kind == FOLLOW_UP) && forall x: Msg | f(x) :: x.kind == DELAY_RESP
    ensures Filter(sent + Out(Handle(list, Syfup(q, m, residence)).1), f) == Filter(sent, f)
  {
    SentIsFollowUp(list, q, m, residence);
    var out := Handle(list, Syfup(q, m, residence)).1;
    if out.Some? {
      DroppedByFilter(sent, out.value, f);
    } else {
      Regrouped(sent, [], []);
    }
  }

  lemma SyfupsSendNone(k: Key, list: seq<Txd>, a: Traffic, b: seq<Traffic>)
    requires k.DelayKey? && a.Syfup? && |b| <= 1 && (b != [] ==> b[0].Syfup?)
    ensures SentFor(k, list, [a] + b) == []
  {
    SentForOne(k, list, a);
    if b == [] {
      Regrouped([a], [], []);
    } else {
      assert b == [b[0]];
      SentForTwo(k, list, a, b[0]);
      SentForOne(k, Handle(list, a).0, b[0]);
    }
  }

  /** Port p sends the responses to one Delay_Req that the list of port q gives. */
  lemma ResponseSends(domain: U8, vs: seq<PortView>, e: BridgeEvent, p: nat, q: nat, k: Key)
    requires Sensible(e, |vs|) && p < |vs| && q < |vs| && p != q && WellNumbered(vs)
    requires k.DelayKey? && k.ingressPort == p + 1 && ResponsesEnterBy(q, k.sequenceId, k.source, e)
    ensures SendsAs(k, ResponsesTo(k.sequenceId, k.source), vs[p], PortAfter(domain, vs, e, p), vs[q].stored,
                    TrafficOf(domain, vs, e, q))
  {
    hide Handle, HandleAll, Filter, SentFor, AfterSync, AfterForward, AfterSend, AfterAnswer, ViewBlocked, Lookups;
    SentForNone(k, vs[q].stored);
    var f, p', traffic := ResponsesTo(k.sequenceId, k.source), PortAfter(domain, vs, e, p), TrafficOf(domain, vs, e, q);
    match e
    case DelayRespIn(x, m) =>
      if m.sequenceId == k.sequenceId && m.requesting == k.source {
        AnswerSends(domain, vs, p, q, m, k);
      } else {
        LookupsSendNone(k, vs[q].stored, domain, vs, x, m, |vs|);
        AnswersAreResponses(domain, f, vs[x], vs[p], m);
        SendsNothing(k, f, vs[p], p', vs[q].stored, traffic);
      }
    case SyncIn(x, m, ingress, egress) =>
      SyncIsNoResponse(domain, vs[x], vs[p], m, egress[p] - ingress, f);
      if traffic != [] {
        SyfupsSendNone(k, vs[q].stored, traffic[0], if m.twoStep then [] else [Syfup(vs[x].ingress, FollowUpOf(m), 0)]);
      }
      SendsNothing(k, f, vs[p], p', vs[q].stored, traffic);
    case FollowUpIn(x, m) =>
      FollowUpIsNoResponse(domain, vs[x], vs[p], m, f);
      SyfupsSendNone(k, vs[q].stored, Syfup(vs[x].ingress, m, 0), []);
      Regrouped([Syfup(vs[x].ingress, m, 0)], [], []);
      SendsNothing(k, f, vs[p], p', vs[q].stored, traffic);
    case DelayReqIn(x, m, ingress, egress) =>
      if ViewBlocked(domain, vs[x], vs[p], m) {
        BlockedStays(domain, vs[x], vs[p], m, egress[p] - ingress);
      } else {
        ForwardedRequest(domain, k, f, vs[x], vs[p], m, egress[p] - ingress);
      }
      RequestSendsNone(k, vs[q].stored, vs[x].ingress, m, egress[q] - ingress);
      SendsNothing(k, f, vs[p], p', vs[q].stored, traffic);
    case PortChange(_, _, _, _) =>
      SendsNothing(k, f, vs[p], p', vs[q].stored, traffic);
  }

  lemma AnswerSends(domain: U8, vs: seq<PortView>, p: nat, q: nat, m: Msg, k: Key)
    requires p < |vs| && q < |vs| && p != q && WellNumbered(vs) && m.kind == DELAY_RESP
    requires k == DelayKey(p + 1, m.sequenceId, m.requesting)
    ensures SendsAs(k, ResponsesTo(k.sequenceId, k.source), vs[p], AfterAnswer(domain, vs[q], vs[p], m), vs[q].stored,
                    Lookups(domain, vs, q, m, |vs|))
  {
    var f := ResponsesTo(k.sequenceId, k.source);
    LookupsSend(k, domain, vs, q, p, m, |vs|);
    var out := TransparentClock.CompleteResponse(vs[q].stored, vs[p].number, m).1;
    FilterSent(vs[p].sent, Out(out), f);
    FilterOut(out, f);
    Regrouped(Filter(vs[p].sent, f), [], []);
  }

  /** Over any run the responses to one Delay_Req that port p sends are those that
      the list of port q gives, if they come in by port q. */
  lemma {:induction false} RunSendsResponses(domain: U8, vs: seq<PortView>, es: seq<BridgeEvent>, p: nat, q: nat, k: Key)
    requires p < |vs| && q < |vs| && p != q && WellNumbered(vs) && k.DelayKey? && k.ingressPort == p + 1
    requires forall e | e in es :: ResponsesEnterBy(q, k.sequenceId, k.source, e)
    ensures SendsAs(k, ResponsesTo(k.sequenceId, k.source), vs[p], AfterEvents(domain, vs, es)[p], vs[q].stored,
                    TrafficOn(domain, vs, es, q))
  {
    var f := ResponsesTo(k.sequenceId, k.source);
    Regrouped(Filter(vs[p].sent, f), [], []);
    if es != [] {
      var before, e := es[..|es| - 1], es[|es| - 1];
      RunSendsResponses(domain, vs, before, p, q, k);
      var ws, traffic := AfterEvents(domain, vs, before), TrafficOn(domain, vs, before, q);
      if Sensible(e, |vs|) {
        StayNumbered(domain, vs, before);
        ResponseSends(domain, ws, e, p, q, k);
        RunHandled(domain, vs, before, q);
        var more := TrafficOf(domain, ws, e, q);
        SentForConcat(k, vs[q].stored, traffic, more);
        Regrouped(Filter(vs[p].sent, f), SentFor(k, vs[q].stored, traffic), SentFor(k, ws[q].stored, more));
      } else {
        Regrouped(traffic, [], []);
      }
    }
  }

  // ---------------------------------------------------------------------
  // Exactly once, through the bridge
  // ---------------------------------------------------------------------

  lemma {:induction false} LookupsAreWellKinded(domain: U8, vs: seq<PortView>, q: nat, m: Msg, n: nat)
    requires q < |vs| && n <= |vs| && m.kind == DELAY_RESP
    ensures forall t | t in Lookups(domain, vs, q, m, n) :: WellKinded(t)
  {
    if n > 0 {
      LookupsAreWellKinded(domain, vs, q, m, n - 1);
    }
  }

  lemma {:induction false} TrafficIsWellKinded(domain: U8, vs: seq<PortView>, es: seq<BridgeEvent>, i: nat)
    requires i < |vs|
    ensures forall t | t in TrafficOn(domain, vs, es, i) :: WellKinded(t)
  {
    if es != [] {
      var before, e := es[..|es| - 1], es[|es| - 1];
      TrafficIsWellKinded(domain, vs, before, i);
      if e.DelayRespIn? && Sensible(e, |vs|) {
        LookupsAreWellKinded(domain, AfterEvents(domain, vs, before), e.q, e.msg, |vs|);
      }
    }
  }

  /** A Sync and its Follow_Up that come in by port q, and are let through to port p
      once each in either order, among any other messages by any ports: port p sends
      one Follow_Up for them, corrected by the time the Sync took to this port. */
  lemma PairIsSent(
    domain: U8, vs: seq<PortView>, es: seq<BridgeEvent>, p: nat, q: nat,
    ingress: Ingress, sync: Msg, fup: Msg, residence: int, any: int)
    requires p < |vs| && q < |vs| && WellNumbered(vs) && ingress.number == q + 1
    requires sync.kind == SYNC && fup.kind == FOLLOW_UP && fup.sequenceId == sync.sequenceId && fup.source == sync.source
    requires forall e | e in es :: SyncsEnterBy(q, sync.sequenceId, sync.source, e)
    requires var k := SyncKey(q + 1, sync.sequenceId, sync.source);
             var traffic := Filter(TrafficOn(domain, vs, es, p), Concerning(k));
             && Filter(vs[p].stored, StoredFor(k)) == []
             && (|| traffic == [Syfup(ingress, sync, residence), Syfup(ingress, fup, any)]
                 || traffic == [Syfup(ingress, fup, any), Syfup(ingress, sync, residence)])
    ensures var f := FollowUpsOf(sync.sequenceId, sync.source);
            Filter(AfterEvents(domain, vs, es)[p].sent, f) == Filter(vs[p].sent, f) + [Forwarded(ingress, fup, residence)]
  {
    var k := SyncKey(q + 1, sync.sequenceId, sync.source);
    TrafficIsWellKinded(domain, vs, es, p);
    RunSendsFollowUps(domain, vs, es, p, q, k);
    PairCompletesOnce(k, vs[p].stored, TrafficOn(domain, vs, es, p), ingress, sync, fup, residence, any);
  }

  /** A Delay_Req that came in by port p and left by port q, and its response that
      comes in by port q: port p sends that response once, corrected by the time the
      request took. */
  lemma ResponseIsSent(
    domain: U8, vs: seq<PortView>, es: seq<BridgeEvent>, p: nat, q: nat, ingress: Ingress, req: Msg, resp: Msg, residence: int)
    requires p < |vs| && q < |vs| && p != q && WellNumbered(vs) && ingress.number == p + 1
    requires req.kind == DELAY_REQ && resp.kind == DELAY_RESP
    requires resp.sequenceId == req.sequenceId && resp.requesting == req.source
    requires forall e | e in es :: ResponsesEnterBy(q, req.sequenceId, req.source, e)
    requires var k := DelayKey(p + 1, req.sequenceId, req.source);
             && Filter(vs[q].stored, StoredFor(k)) == []
             && Filter(TrafficOn(domain, vs, es, q), Concerning(k)) == [Request(ingress, req, residence), Response(p + 1, resp)]
    ensures var f := ResponsesTo(req.sequenceId, req.source);
            Filter(AfterEvents(domain, vs, es)[p].sent, f)
            == Filter(vs[p].sent, f) + [resp.(correction := resp.correction + ToTimeInterval(residence))]
  {
    var k := DelayKey(p + 1, req.sequenceId, req.source);
    TrafficIsWellKinded(domain, vs, es, q);
    RunSendsResponses(domain, vs, es, p, q, k);
    RequestAnsweredOnce(k, vs[q].stored, TrafficOn(domain, vs, es, q), ingress, req, resp, residence);
  }

  // ---------------------------------------------------------------------
  // The bridge itself
  // ---------------------------------------------------------------------

  lemma SyncIsEvent(domain: U8, was: seq<PortView>, now: seq<PortView>, q: nat, m: Msg, ingress: int, egress: seq<int>)
    requires q < |was| == |egress| && m.kind == SYNC
    requires SyncForwarded(domain, was, now, q, m, Residences(ingress, egress))
    ensures now == AfterEvent(domain, was, SyncIn(q, m, ingress, egress))
  {
    hide TcMachine.AfterSync;
  }

  lemma FollowUpIsEvent(domain: U8, was: seq<PortView>, now: seq<PortView>, q: nat, m: Msg)
    requires q < |was| && m.kind == FOLLOW_UP && CompletedUpTo(domain, was, now, q, m, Zeros(|was|), |was|)
    ensures now == AfterEvent(domain, was, FollowUpIn(q, m))
  {
    hide AfterForward;
  }

  lemma RequestIsEvent(domain: U8, was: seq<PortView>, now: seq<PortView>, q: nat, m: Msg, ingress: int, egress: seq<int>)
    requires q < |was| == |egress| && m.kind == DELAY_REQ
    requires EventForwarded(domain, was, now, q, m, Residences(ingress, egress))
    ensures now == AfterEvent(domain, was, DelayReqIn(q, m, ingress, egress))
  {
    hide AfterForward, AfterSend;
  }

  lemma ResponseIsEvent(domain: U8, was: seq<PortView>, now: seq<PortView>, q: nat, m: Msg)
    requires q < |was| && m.kind == DELAY_RESP && AnsweredUpTo(domain, was, now, q, m, |was|)
    ensures now == AfterEvent(domain, was, DelayRespIn(q, m))
  {
    hide AfterAnswer, Consumed;
  }

  method OnSync(b: Bridge, q: nat, m: Msg, ingress: int, egress: seq<int>)
    requires b.Valid() && q < |b.ports| == |egress| && m.kind == SYNC
    modifies b, b.ports, b.pool
    ensures b.Valid() && b.views == AfterEvent(b.domain, old(b.views), SyncIn(q, m, ingress, egress))
    ensures fresh(b.pool - old(b.pool))
  {
    hide AfterEvent, SyncForwarded;
    var msg := new Message(m);
    b.FwdSync(q, msg, ingress, egress);
    SyncIsEvent(b.domain, old(b.views), b.views, q, m, ingress, egress);
  }

  method OnFollowUp(b: Bridge, q: nat, m: Msg)
    requires b.Valid() && q < |b.ports| && m.kind == FOLLOW_UP
    modifies b, b.ports, b.pool
    ensures b.Valid() && b.views == AfterEvent(b.domain, old(b.views), FollowUpIn(q, m))
    ensures fresh(b.pool - old(b.pool))
  {
    hide AfterEvent, CompletedUpTo;
    var msg := new Message(m);
    b.pool := b.pool + {msg};
    b.FwdFolup(q, msg);
    FollowUpIsEvent(b.domain, old(b.views), b.views, q, m);
  }

  method OnDelayReq(b: Bridge, q: nat, m: Msg, ingress: int, egress: seq<int>)
    requires b.Valid() && q < |b.ports| == |egress| && m.kind == DELAY_REQ
    modifies b, b.ports, b.pool
    ensures b.Valid() && b.views == AfterEvent(b.domain, old(b.views), DelayReqIn(q, m, ingress, egress))
    ensures fresh(b.pool - old(b.pool))
  {
    hide AfterEvent, EventForwarded;
    var msg := new Message(m);
    b.pool := b.pool + {msg};
    b.FwdEvent(q, msg, ingress, egress);
    RequestIsEvent(b.domain, old(b.views), b.views, q, m, ingress, egress);
  }

  method OnDelayResp(b: Bridge, q: nat, m: Msg)
    requires b.Valid() && q < |b.ports| && m.kind == DELAY_RESP
    modifies b, b.ports
    ensures b.Valid() && b.views == AfterEvent(b.domain, old(b.views), DelayRespIn(q, m)) && b.pool == old(b.pool)
  {
    hide AfterEvent, AnsweredUpTo;
    var msg := new Message(m);
    b.FwdResponse(q, msg);
    ResponseIsEvent(b.domain, old(b.views), b.views, q, m);
  }

  /** One event; those that make no sense have no effect. */
  method Take(b: Bridge, e: BridgeEvent)
    requires b.Valid()
    modifies b, b.ports, b.pool
    ensures b.Valid() && b.views == AfterEvent(b.domain, old(b.views), e)
    ensures fresh(b.pool - old(b.pool))
  {
    match e
    case SyncIn(q, m, ingress, egress) =>
      if q < |b.ports| == |egress| && m.kind == SYNC {
        OnSync(b, q, m, ingress, egress);
      }
    case FollowUpIn(q, m) =>
      if q < |b.ports| && m.kind == FOLLOW_UP {
        OnFollowUp(b, q, m);
      }
    case DelayReqIn(q, m, ingress, egress) =>
      if q < |b.ports| == |egress| && m.kind == DELAY_REQ {
        OnDelayReq(b, q, m, ingress, egress);
      }
    case DelayRespIn(q, m) =>
      if q < |b.ports| && m.kind == DELAY_RESP {
        OnDelayResp(b, q, m);
      }
    case PortChange(p, state, peerDelay, asymmetry) =>
      if p < |b.ports| {
        b.ChangePort(p, state, peerDelay, asymmetry);
        assert b.views == AfterEvent(b.domain, old(b.views), e);
      }
  }

  /** A bridge that takes events: the list of each port, and what it has sent, are
      what the events amount to for that port. */
  method TakeAll(b: Bridge, es: seq<BridgeEvent>)
    requires b.Valid()
    modifies b, b.ports, b.pool
    ensures b.Valid() && b.views == AfterEvents(b.domain, old(b.views), es)
    ensures forall i | 0 <= i < |b.ports| :: i < |old(b.views)| && b.views[i] == b.ports[i].View()
              && b.ports[i].stored == HandleAll(old(b.views)[i].stored, TrafficOn(b.domain, old(b.views), es, i)).0
  {
    assert es[..0] == [];
    for n := 0 to |es|
      invariant b.Valid() && b.views == AfterEvents(b.domain, old(b.views), es[..n])
      invariant fresh(b.pool - old(b.pool))
    {
      Take(b, es[n]);
      assert es[..n + 1][..n] == es[..n];
    }
    assert es[..|es|] == es;
    forall i | 0 <= i < |b.ports|
      ensures b.views[i].stored == HandleAll(old(b.views)[i].stored, TrafficOn(b.domain, old(b.views), es, i)).0
    {
      RunHandled(b.domain, old(b.views), es, i);
    }
  }
}
