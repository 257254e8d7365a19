/** Forwarding by a transparent clock (tc.c). */
module TransparentClock {
  import opened Octets
  import opened DataSets
  import opened Fsm
  import opened Lists

  datatype Kind = SYNC | DELAY_REQ | FOLLOW_UP | DELAY_RESP | OTHER_KIND

  /** What forwarding looks at: requesting is the requestingPortIdentity of a
      Delay_Resp, origin the timestamp carried in the body (ns), and correction is
      in units of 2^-16 ns. */
  datatype Msg = Msg(kind: Kind, domain: U8, sequenceId: U16, source: PortIdentity, requesting: PortIdentity,
                     twoStep: bool, origin: int, correction: int)

  /** A message that went out of a port, with its residence time in ns. */
  datatype Txd = Txd(msg: Msg, residence: int, ingressPort: nat)

  /** The ingress port: its number, mean peer delay (ns) and asymmetry (2^-16 ns). */
  datatype Ingress = Ingress(number: nat, peerDelay: int, asymmetry: int)

  datatype TcMatch = TC_MISMATCH | TC_SYNC_FUP | TC_FUP_SYNC | TC_DELAY_REQRESP

  function ToTimeInterval(ns: int): int {
    ns * 0x1_0000
  }

  function MatchSyfup(ingressPort: nat, msg: Msg, txd: Txd): TcMatch {
    if ingressPort != txd.ingressPort then TC_MISMATCH
    else if msg.sequenceId != txd.msg.sequenceId then TC_MISMATCH
    else if msg.source != txd.msg.source then TC_MISMATCH
    else if txd.msg.kind == SYNC && msg.kind == FOLLOW_UP then TC_SYNC_FUP
    else if txd.msg.kind == FOLLOW_UP && msg.kind == SYNC then TC_FUP_SYNC
    else TC_MISMATCH
  }

  function MatchDelay(ingressPort: nat, resp: Msg, txd: Txd): TcMatch {
    if ingressPort != txd.ingressPort then TC_MISMATCH
    else if txd.msg.sequenceId != resp.sequenceId then TC_MISMATCH
    else if txd.msg.source != resp.requesting then TC_MISMATCH
    else if txd.msg.kind == DELAY_REQ && resp.kind == DELAY_RESP then TC_DELAY_REQRESP
    else TC_MISMATCH
  }

  function SyfupOf(ingressPort: nat, msg: Msg): Txd -> bool {
    (t: Txd) => MatchSyfup(ingressPort, msg, t) != TC_MISMATCH
  }

  function DelayOf(ingressPort: nat, resp: Msg): Txd -> bool {
    (t: Txd) => MatchDelay(ingressPort, resp, t) != TC_MISMATCH
  }

  function Out(m: Option<Msg>): seq<Msg> {
    if m.Some? then [m.value] else []
  }

  /** tc_complete_syfup() on the list of an egress port: the new list and the
      Follow_Up that is sent, if any. */
  function CompleteSyfup(list: seq<Txd>, q: Ingress, msg: Msg, residence: int): (seq<Txd>, Option<Msg>) {
    var i := First(list, SyfupOf(q.number, msg));
    if i == |list| then (list + [Txd(msg, residence, q.number)], None)
    else
      var syncFirst := MatchSyfup(q.number, msg, list[i]) == TC_SYNC_FUP;
      var fup := if syncFirst then msg else list[i].msg;
      var r := if syncFirst then list[i].residence else residence;
      var c := fup.correction + ToTimeInterval(r) + ToTimeInterval(q.peerDelay) + q.asymmetry;
      (Without(list, i), Some(fup.(correction := c)))
  }

  /** tc_complete_response(): list belongs to the port the response came in by,
      egress is the port the request came in by. */
  function CompleteResponse(list: seq<Txd>, egress: nat, resp: Msg): (seq<Txd>, Option<Msg>) {
    var i := First(list, DelayOf(egress, resp));
    if i == |list| then (list, None)
    else (Without(list, i), Some(resp.(correction := resp.correction + ToTimeInterval(list[i].residence))))
  }

  /** tc_blocked(): whether nothing is forwarded from port q to port p. */
  predicate Blocked(q: nat, p: nat, spanningTree: bool, sameDomain: bool, qState: PortState, pState: PortState, kind: Kind) {
    if q == p || p == 0 then true
    else if !spanningTree || !sameDomain then false
    else
      || (match qState
          case INITIALIZING | FAULTY | DISABLED | LISTENING | PRE_MASTER | PASSIVE => true
          case MASTER | GRAND_MASTER => kind != DELAY_REQ
          case UNCALIBRATED | SLAVE => false)
      || (match pState
          case INITIALIZING | FAULTY | DISABLED | LISTENING | PRE_MASTER | PASSIVE => true
          case UNCALIBRATED | SLAVE => kind != DELAY_REQ
          case MASTER | GRAND_MASTER => kind == DELAY_REQ)
  }

  /** The Follow_Up made from a one-step Sync (tc_fwd_sync()). */
  function FollowUpOf(sync: Msg): Msg {
    sync.(kind := FOLLOW_UP, twoStep := false, correction := 0)
  }

  /** The Follow_Up that leaves by an egress port. */
  function Forwarded(q: Ingress, fup: Msg, residence: int): Msg {
    fup.(correction := fup.correction + ToTimeInterval(residence) + ToTimeInterval(q.peerDelay) + q.asymmetry)
  }

  // ---------------------------------------------------------------------
  // One response, several egress ports
  // ---------------------------------------------------------------------

  /** Answering one port does not change what another is answered. */
  lemma AnswersAreIndependent(list: seq<Txd>, other: nat, p: nat, resp: Msg)
    requires p != other
    ensures CompleteResponse(CompleteResponse(list, other, resp).0, p, resp).1 == CompleteResponse(list, p, resp).1
  {
    var i := First(list, DelayOf(other, resp));
    if i < |list| {
      assert !DelayOf(p, resp)(list[i]);
      FirstWithout(list, i, DelayOf(p, resp));
    }
  }

  // ---------------------------------------------------------------------
  // What happens on the list of one egress port
  // ---------------------------------------------------------------------

  /** A Sync or Follow_Up to complete, a Delay_Req that went out of the port, or
      a Delay_Resp that came in by it for another port. */
  datatype Traffic =
    | Syfup(q: Ingress, msg: Msg, residence: int)
    | Request(q: Ingress, msg: Msg, residence: int)
    | Response(egress: nat, msg: Msg)

  /** Events carry the kinds of messages that their handlers are called with. */
  predicate WellKinded(e: Traffic) {
    match e
    case Syfup(_, m, _) => m.kind == SYNC || m.kind == FOLLOW_UP
    case Request(_, m, _) => m.kind == DELAY_REQ
    case Response(_, m) => m.kind == DELAY_RESP
  }

  function Handle(list: seq<Txd>, e: Traffic): (seq<Txd>, Option<Msg>) {
    match e
    case Syfup(q, m, r) => CompleteSyfup(list, q, m, r)
    case Request(q, m, r) => (list + [Txd(m, r, q.number)], None)
    case Response(egress, m) => CompleteResponse(list, egress, m)
  }

  /** The list after a trace, and the messages sent, in order. */
  function HandleAll(list: seq<Txd>, es: seq<Traffic>): (seq<Txd>, seq<Msg>)
    decreases es
  {
    if es == [] then (list, [])
    else
      var (l1, out) := Handle(list, es[0]);
      var (l2, outs) := HandleAll(l1, es[1..]);
      (l2, Out(out) + outs)
  }

  /** What identifies a Sync and its Follow_Up, or a Delay_Req and its response. */
  datatype Key =
    | SyncKey(ingressPort: nat, sequenceId: U16, source: PortIdentity)
    | DelayKey(ingressPort: nat, sequenceId: U16, source: PortIdentity)

  function StoredFor(k: Key): Txd -> bool {
    (t: Txd) =>
      && (if k.SyncKey? then t.msg.kind == SYNC || t.msg.kind == FOLLOW_UP else t.msg.kind == DELAY_REQ)
      && t.ingressPort == k.ingressPort && t.msg.sequenceId == k.sequenceId && t.msg.source == k.source
  }

  function KeyOf(e: Traffic): Key {
    match e
    case Syfup(q, m, _) => SyncKey(q.number, m.sequenceId, m.source)
    case Request(q, m, _) => DelayKey(q.number, m.sequenceId, m.source)
    case Response(egress, m) => DelayKey(egress, m.sequenceId, m.requesting)
  }

  function Concerning(k: Key): Traffic -> bool {
    (e: Traffic) => KeyOf(e) == k
  }

  /** The messages that a trace sends for one key. */
  function SentFor(k: Key, list: seq<Txd>, es: seq<Traffic>): seq<Msg>
    decreases es
  {
    if es == [] then []
    else
      var (l1, out) := Handle(list, es[0]);
      (if Concerning(k)(es[0]) then Out(out) else []) + SentFor(k, l1, es[1..])
  }

  /** Events of other keys neither add nor remove what is stored for a key. */
  lemma OthersDoNotInterfere(k: Key, list: seq<Txd>, e: Traffic)
    requires WellKinded(e) && !Concerning(k)(e)
    ensures Filter(Handle(list, e).0, StoredFor(k)) == Filter(list, StoredFor(k))
  {
    match e
    case Syfup(q, m, r) =>
      var i := First(list, SyfupOf(q.number, m));
      if i == |list| {
        FilterConcat(list, [Txd(m, r, q.number)], StoredFor(k));
      } else {
        FilterWithout(list, i, StoredFor(k));
      }
    case Request(q, m, r) =>
      FilterConcat(list, [Txd(m, r, q.number)], StoredFor(k));
    case Response(egress, m) =>
      var i := First(list, DelayOf(egress, m));
      if i < |list| {
        FilterWithout(list, i, StoredFor(k));
      }
  }

  lemma SyfupIsEnough(k: Key, list: seq<Txd>, q: Ingress, m: Msg, r: int)
    requires KeyOf(Syfup(q, m, r)) == k && WellKinded(Syfup(q, m, r))
    ensures Filter(CompleteSyfup(list, q, m, r).0, StoredFor(k)) == CompleteSyfup(Filter(list, StoredFor(k)), q, m, r).0
    ensures CompleteSyfup(list, q, m, r).1 == CompleteSyfup(Filter(list, StoredFor(k)), q, m, r).1
  {
    FirstInFilter(list, SyfupOf(q.number, m), StoredFor(k));
    StoredOne(k, list, Txd(m, r, q.number));
    hide Filter, First, Without;
  }

  lemma StoredOne(k: Key, list: seq<Txd>, t: Txd)
    ensures Filter(list + [t], StoredFor(k)) == if StoredFor(k)(t) then Filter(list, StoredFor(k)) + [t] else Filter(list, StoredFor(k))
  {
    FilterConcat(list, [t], StoredFor(k));
    FilterCons(t, [], StoredFor(k));
    assert [t] + [] == [t];
  }

  lemma ResponseIsEnough(k: Key, list: seq<Txd>, egress: nat, m: Msg)
    requires KeyOf(Response(egress, m)) == k && WellKinded(Response(egress, m))
    ensures Filter(CompleteResponse(list, egress, m).0, StoredFor(k)) == CompleteResponse(Filter(list, StoredFor(k)), egress, m).0
    ensures CompleteResponse(list, egress, m).1 == CompleteResponse(Filter(list, StoredFor(k)), egress, m).1
  {
    FirstInFilter(list, DelayOf(egress, m), StoredFor(k));
    hide Filter, First, Without;
  }

  /** What is stored for a key determines how an event of that key is handled. */
  lemma KeyIsEnough(k: Key, list: seq<Txd>, e: Traffic)
    requires Concerning(k)(e) && WellKinded(e)
    ensures Filter(Handle(list, e).0, StoredFor(k)) == Handle(Filter(list, StoredFor(k)), e).0
    ensures Handle(list, e).1 == Handle(Filter(list, StoredFor(k)), e).1
  {
    match e
    case Syfup(q, m, r) => SyfupIsEnough(k, list, q, m, r);
    case Request(q, m, r) => StoredOne(k, list, Txd(m, r, q.number));
    case Response(egress, m) => ResponseIsEnough(k, list, egress, m);
    hide CompleteSyfup, CompleteResponse, Filter;
  }

  lemma HandleAllCons(list: seq<Txd>, e: Traffic, rest: seq<Traffic>)
    ensures HandleAll(list, [e] + rest).0 == HandleAll(Handle(list, e).0, rest).0
    ensures HandleAll(list, [e] + rest).1 == Out(Handle(list, e).1) + HandleAll(Handle(list, e).0, rest).1
  {
    assert ([e] + rest)[1..] == rest;
  }

  /** Whatever else passes through the port, what it sends and keeps for a key is
      determined by the events of that key alone. */
  lemma {:induction false} Projection(k: Key, list: seq<Txd>, es: seq<Traffic>)
    requires forall e | e in es :: WellKinded(e)
    ensures SentFor(k, list, es) == HandleAll(Filter(list, StoredFor(k)), Filter(es, Concerning(k))).1
    ensures Filter(HandleAll(list, es).0, StoredFor(k))
         == HandleAll(Filter(list, StoredFor(k)), Filter(es, Concerning(k))).0
    decreases es
  {
    if es != [] {
      var e, rest := es[0], es[1..];
      var l1 := Handle(list, e).0;
      assert e in es && forall x | x in rest :: x in es;
      Projection(k, l1, rest);
      assert es == [e] + rest;
      FilterCons(e, rest, Concerning(k));
      HandleAllCons(list, e, rest);
      if Concerning(k)(e) {
        KeyIsEnough(k, list, e);
        HandleAllCons(Filter(list, StoredFor(k)), e, Filter(rest, Concerning(k)));
      } else {
        OthersDoNotInterfere(k, list, e);
      }
    }
  }

  /** A Sync and a Follow_Up, alone on a list, in either order. */
  lemma PairAlone(q: Ingress, first: Traffic, second: Traffic, fup: Msg, residence: int)
    requires first.Syfup? && second.Syfup? && first.q == q == second.q
    requires first.msg.sequenceId == second.msg.sequenceId && first.msg.source == second.msg.source
    requires || (first.msg.kind == SYNC && second.msg.kind == FOLLOW_UP && fup == second.msg && residence == first.residence)
             || (first.msg.kind == FOLLOW_UP && second.msg.kind == SYNC && fup == first.msg && residence == second.residence)
    ensures Handle([], first) == ([Txd(first.msg, first.residence, q.number)], None)
    ensures Handle([Txd(first.msg, first.residence, q.number)], second) == ([], Some(Forwarded(q, fup, residence)))
  {
    var l1 := [Txd(first.msg, first.residence, q.number)];
    assert [] + l1 == l1;
    FirstCons(l1[0], [], SyfupOf(q.number, second.msg));
    assert l1 == [l1[0]] + [] && Without(l1, 0) == [];
  }

  lemma HandleTwoAlone(e: Traffic, f: Traffic)
    ensures var l := Handle([], e).0;
            && HandleAll([], [e, f]).0 == Handle(l, f).0
            && HandleAll([], [e, f]).1 == Out(Handle([], e).1) + Out(Handle(l, f).1)
  {
    var l := Handle([], e).0;
    assert [e, f] == [e] + [f] && [f] == [f] + [];
    HandleAllCons([], e, [f]);
    HandleAllCons(l, f, []);
    hide Handle;
  }

  /** A Sync and its Follow_Up, handled once each in either order and among any
      other traffic, make the port send exactly one Follow_Up, corrected by the
      residence time of the Sync in this port, and leave nothing behind. */
  lemma PairCompletesOnce(k: Key, list: seq<Txd>, es: seq<Traffic>, q: Ingress, sync: Msg, fup: Msg, residence: int, any: int)
    requires forall e | e in es :: WellKinded(e)
    requires sync.kind == SYNC && fup.kind == FOLLOW_UP
    requires k == SyncKey(q.number, sync.sequenceId, sync.source) == SyncKey(q.number, fup.sequenceId, fup.source)
    requires Filter(list, StoredFor(k)) == []
    requires || Filter(es, Concerning(k)) == [Syfup(q, sync, residence), Syfup(q, fup, any)]
             || Filter(es, Concerning(k)) == [Syfup(q, fup, any), Syfup(q, sync, residence)]
    ensures SentFor(k, list, es) == [Forwarded(q, fup, residence)]
    ensures Filter(HandleAll(list, es).0, StoredFor(k)) == []
  {
    Projection(k, list, es);
    var ks := Filter(es, Concerning(k));
    assert ks == [ks[0], ks[1]];
    PairAlone(q, ks[0], ks[1], fup, residence);
    HandleTwoAlone(ks[0], ks[1]);
  }

  /** A request and its response on an empty list. */
  lemma RequestAlone(q: Ingress, req: Msg, resp: Msg, residence: int)
    requires req.kind == DELAY_REQ && resp.kind == DELAY_RESP
    requires req.sequenceId == resp.sequenceId && req.source == resp.requesting
    ensures var e, f := Request(q, req, residence), Response(q.number, resp);
            var l := Handle([], e).0;
            && Handle([], e).1.None? && Handle(l, f).0 == []
            && Handle(l, f).1 == Some(resp.(correction := resp.correction + ToTimeInterval(residence)))
  {
    var t := Txd(req, residence, q.number);
    assert [] + [t] == [t] && Without([t], 0) == [];
    FirstIs([t], DelayOf(q.number, resp), 0);
  }

  /** A Delay_Req and its response, among any other traffic, make the port the
      response came in by send it on once, corrected by the residence time of the
      request. */
  lemma RequestAnsweredOnce(k: Key, list: seq<Txd>, es: seq<Traffic>, q: Ingress, req: Msg, resp: Msg, residence: int)
    requires forall e | e in es :: WellKinded(e)
    requires req.kind == DELAY_REQ && resp.kind == DELAY_RESP
    requires k == DelayKey(q.number, req.sequenceId, req.source) == DelayKey(q.number, resp.sequenceId, resp.requesting)
    requires Filter(list, StoredFor(k)) == []
    requires Filter(es, Concerning(k)) == [Request(q, req, residence), Response(q.number, resp)]
    ensures SentFor(k, list, es) == [resp.(correction := resp.correction + ToTimeInterval(residence))]
    ensures Filter(HandleAll(list, es).0, StoredFor(k)) == []
  {
    Projection(k, list, es);
    hide Filter, Handle, HandleAll, SentFor, ToTimeInterval;
    HandleTwoAlone(Request(q, req, residence), Response(q.number, resp));
    RequestAlone(q, req, resp, residence);
  }
}
