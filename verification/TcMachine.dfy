/** The transparent clock's ports and the messages they share (tc.c). */
module TcMachine {
  import opened Octets
  import opened DataSets
  import opened Fsm
  import opened Lists
  import opened TransparentClock

  /** A message buffer: every port that stores the message points to this one. */
  class Message {
    const kind: Kind
    const domain: U8
    const sequenceId: U16
    const source: PortIdentity
    const requesting: PortIdentity
    const origin: int
    var twoStep: bool
    var correction: int

    constructor (m: Msg)
      ensures Value() == m
    {
      kind, domain, sequenceId := m.kind, m.domain, m.sequenceId;
      source, requesting, origin := m.source, m.requesting, m.origin;
      twoStep, correction := m.twoStep, m.correction;
    }

    function Value(): Msg
      reads this
    {
      Msg(kind, domain, sequenceId, source, requesting, twoStep, origin, correction)
    }
  }

  datatype Entry = Entry(msg: Message, residence: int, ingressPort: nat)

  /** What a list entry stands for when its message has the given value. */
  function Meaning(e: Entry): Txd
    reads e.msg
  {
    Txd(e.msg.Value(), e.residence, e.ingressPort)
  }

  /** How an egress port sees a message that is forwarded to it. */
  function EventOf(q: Ingress, msg: Msg, residence: int): Traffic {
    if msg.kind == DELAY_REQ then Request(q, msg, residence) else Syfup(q, msg, residence)
  }

  class TcPort {
    const number: nat
    const spanningTree: bool
    var state: PortState
    var peerDelay: int
    var asymmetry: int
    var transmitted: seq<Entry>
    /** What went out of the port, oldest first. */
    var sent: seq<Msg>
    /** What the entries of transmitted stand for. */
    ghost var stored: seq<Txd>

    constructor (number: nat, spanningTree: bool)
      ensures View() == PortView(number, spanningTree, INITIALIZING, Ingress(number, 0, 0), [], [])
      ensures Valid({})
    {
      this.number, this.spanningTree := number, spanningTree;
      state, peerDelay, asymmetry := INITIALIZING, 0, 0;
      transmitted, sent, stored := [], [], [];
    }

    /** pool contains every message that a port may hold. */
    ghost predicate Valid(pool: set<Message>)
      reads this, pool
    {
      && |stored| == |transmitted|
      && forall i | 0 <= i < |stored| :: transmitted[i].msg in pool && stored[i] == Meaning(transmitted[i])
    }

    ghost function View(): PortView
      reads this
    {
      PortView(number, spanningTree, state, AsIngress(), stored, sent)
    }

    function AsIngress(): Ingress
      reads this
    {
      Ingress(number, peerDelay, asymmetry)
    }

    method SearchSyfup(ghost pool: set<Message>, q: nat, msg: Message) returns (i: nat)
      requires Valid(pool)
      ensures i == First(stored, SyfupOf(q, msg.Value()))
    {
      i := 0;
      while i < |transmitted| && MatchSyfup(q, msg.Value(), Meaning(transmitted[i])) == TC_MISMATCH
        invariant i <= |transmitted|
        invariant forall k | 0 <= k < i :: MatchSyfup(q, msg.Value(), stored[k]) == TC_MISMATCH
      {
        i := i + 1;
      }
      FirstIs(stored, SyfupOf(q, msg.Value()), i);
    }

    method SearchDelay(ghost pool: set<Message>, p: nat, resp: Message) returns (i: nat)
      requires Valid(pool)
      ensures i == First(stored, DelayOf(p, resp.Value()))
    {
      i := 0;
      while i < |transmitted| && MatchDelay(p, resp.Value(), Meaning(transmitted[i])) == TC_MISMATCH
        invariant i <= |transmitted|
        invariant forall k | 0 <= k < i :: MatchDelay(p, resp.Value(), stored[k]) == TC_MISMATCH
      {
        i := i + 1;
      }
      FirstIs(stored, DelayOf(p, resp.Value()), i);
    }

    method Store(ghost pool: set<Message>, q: TcPort, msg: Message, residence: int)
      requires Valid(pool) && msg in pool
      modifies this`transmitted, this`stored
      ensures Valid(pool)
      ensures stored == old(stored) + [Txd(msg.Value(), residence, q.number)]
    {
      var e := Entry(msg, residence, q.number);
      transmitted := transmitted + [e];
      stored := stored + [Meaning(e)];
    }

    method Remove(ghost pool: set<Message>, i: nat)
      requires Valid(pool) && i < |transmitted|
      modifies this`transmitted, this`stored
      ensures Valid(pool)
      ensures stored == Without(old(stored), i)
    {
      transmitted := transmitted[..i] + transmitted[i + 1..];
      stored := stored[..i] + stored[i + 1..];
    }

    /** Sends the message with its correction increased, then restores it. */
    method SendCorrected(msg: Message, increase: int)
      modifies this`sent, msg`correction
      ensures msg.correction == old(msg.correction)
      ensures sent == old(sent) + [old(msg.Value()).(correction := old(msg.correction) + increase)]
    {
      var c1 := msg.correction;
      msg.correction := c1 + increase;
      sent := sent + [msg.Value()];
      msg.correction := c1;
    }

    /** tc_complete_syfup(): the message, which came in by port q, is to leave by
        this port. */
    method CompleteSyfup(ghost pool: set<Message>, q: TcPort, msg: Message, residence: int)
      requires Valid(pool) && msg in pool
      modifies this`transmitted, this`stored, this`sent, pool`correction
      ensures Valid(pool)
      ensures var done := TransparentClock.CompleteSyfup(old(stored), q.AsIngress(), msg.Value(), residence);
              stored == done.0 && sent == old(sent) + Out(done.1)
      ensures forall m | m in pool :: m.correction == old(m.correction)
    {
      var i := SearchSyfup(pool, q.number, msg);
      if i == |transmitted| {
        Store(pool, q, msg, residence);
        return;
      }
      var fup, r := msg, transmitted[i].residence;
      if transmitted[i].msg.kind != SYNC {
        fup, r := transmitted[i].msg, residence;
      }
      SendCorrected(fup, ToTimeInterval(r) + ToTimeInterval(q.peerDelay) + q.asymmetry);
      Remove(pool, i);
    }

    /** tc_complete() for what is kept by the egress port. */
    method Complete(ghost pool: set<Message>, q: TcPort, msg: Message, residence: int)
      requires Valid(pool) && msg in pool
      requires msg.kind == SYNC || msg.kind == FOLLOW_UP || msg.kind == DELAY_REQ
      modifies this`transmitted, this`stored, this`sent, pool`correction
      ensures Valid(pool)
      ensures var done := Handle(old(stored), EventOf(q.AsIngress(), msg.Value(), residence));
              stored == done.0 && sent == old(sent) + Out(done.1)
      ensures forall m | m in pool :: m.correction == old(m.correction)
    {
      if msg.kind == DELAY_REQ {
        Store(pool, q, msg, residence);
      } else {
        CompleteSyfup(pool, q, msg, residence);
      }
    }

    /** tc_complete_response(): the response came in by this port and is to leave
        by port p. */
    method CompleteResponse(ghost pool: set<Message>, p: TcPort, resp: Message)
      requires Valid(pool) && p != this
      modifies this`transmitted, this`stored, p`sent, resp`correction
      ensures Valid(pool)
      ensures var done := TransparentClock.CompleteResponse(old(stored), p.number, resp.Value());
              stored == done.0 && p.sent == old(p.sent) + Out(done.1)
      ensures resp.correction == old(resp.correction)
    {
      var i := SearchDelay(pool, p.number, resp);
      if i == |transmitted| {
        return;
      }
      p.SendCorrected(resp, ToTimeInterval(transmitted[i].residence));
      Remove(pool, i);
    }
  }

  /** What forwarding reads and changes of a port. */
  datatype PortView = PortView(number: nat, spanningTree: bool, state: PortState, ingress: Ingress,
                               stored: seq<Txd>, sent: seq<Msg>)

  predicate ViewBlocked(domain: U8, q: PortView, p: PortView, m: Msg) {
    Blocked(q.number, p.number, q.spanningTree, m.domain == domain, q.state, p.state, m.kind)
  }

  /** Port p after a message that came in by port q was completed for it. */
  function AfterForward(domain: U8, q: PortView, p: PortView, m: Msg, residence: int): PortView {
    if ViewBlocked(domain, q, p, m) then p
    else
      var done := Handle(p.stored, EventOf(q.ingress, m, residence));
      p.(stored := done.0, sent := p.sent + Out(done.1))
  }

  /** Port p after an event message was sent by it, before it is completed. */
  function AfterSend(domain: U8, q: PortView, p: PortView, m: Msg): PortView {
    if ViewBlocked(domain, q, p, m) then p else p.(sent := p.sent + [m])
  }

  /** Each of the first n ports has sent the message, the others are as they were. */
  ghost predicate SentUpTo(domain: U8, was: seq<PortView>, now: seq<PortView>, q: nat, m: Msg, n: nat) {
    && |now| == |was| && q < |was|
    && forall j | 0 <= j < |was| :: now[j] == if j < n then AfterSend(domain, was[q], was[j], m) else was[j]
  }

  /** Each of the first n ports has completed the message, as it came in and with
      the residence time of that port; the others are as they were. */
  ghost predicate CompletedUpTo(domain: U8, was: seq<PortView>, now: seq<PortView>, q: nat, m: Msg, residences: seq<int>, n: nat) {
    && |now| == |was| == |residences| && q < |was|
    && forall j | 0 <= j < |was| :: now[j] == if j < n then AfterForward(domain, was[q], was[j], m, residences[j]) else was[j]
  }

  /** What is left of the list of port q after the first n ports were answered. */
  function Consumed(domain: U8, was: seq<PortView>, q: nat, resp: Msg, n: nat): seq<Txd>
    requires q < |was| && n <= |was|
  {
    if n == 0 then was[q].stored
    else
      var list := Consumed(domain, was, q, resp, n - 1);
      if n - 1 == q || ViewBlocked(domain, was[q], was[n - 1], resp) then list
      else TransparentClock.CompleteResponse(list, was[n - 1].number, resp).0
  }

  /** Port p after it was answered from the list of port q. */
  function AfterAnswer(domain: U8, q: PortView, p: PortView, resp: Msg): PortView {
    if ViewBlocked(domain, q, p, resp) then p
    else p.(sent := p.sent + Out(TransparentClock.CompleteResponse(q.stored, p.number, resp).1))
  }

  /** Each of the first n ports has sent the response with the residence time of
      its own request, whichever ports were answered before it. */
  ghost predicate AnsweredUpTo(domain: U8, was: seq<PortView>, now: seq<PortView>, q: nat, resp: Msg, n: nat) {
    && |now| == |was| && q < |was| && n <= |was|
    && now[q] == was[q].(stored := Consumed(domain, was, q, resp, n))
    && forall j | 0 <= j < |was| && j != q :: now[j] == if j < n then AfterAnswer(domain, was[q], was[j], resp) else was[j]
  }

  /** Ports are numbered from one, in order. */
  ghost predicate Numbered(vs: seq<PortView>) {
    forall i | 0 <= i < |vs| :: vs[i].number == i + 1
  }

  /** Answering other ports does not change what a port is answered. */
  lemma {:induction false} AnswerIsOwn(domain: U8, was: seq<PortView>, q: nat, resp: Msg, n: nat, i: nat)
    requires q < |was| && n <= i < |was|
    requires Numbered(was)
    ensures TransparentClock.CompleteResponse(Consumed(domain, was, q, resp, n), was[i].number, resp).1
         == TransparentClock.CompleteResponse(was[q].stored, was[i].number, resp).1
  {
    if n > 0 {
      AnswerIsOwn(domain, was, q, resp, n - 1, i);
      AnswersAreIndependent(Consumed(domain, was, q, resp, n - 1), was[n - 1].number, was[i].number, resp);
    }
  }

  /** The ports after port i was answered from the list of port q. */
  function Answered(domain: U8, vs: seq<PortView>, q: nat, resp: Msg, i: nat): seq<PortView>
    requires q < |vs| && i < |vs|
  {
    if i == q || ViewBlocked(domain, vs[q], vs[i], resp) then vs
    else
      var done := TransparentClock.CompleteResponse(vs[q].stored, vs[i].number, resp);
      vs[q := vs[q].(stored := done.0)][i := vs[i].(sent := vs[i].sent + Out(done.1))]
  }

  lemma AnswerStep(domain: U8, was: seq<PortView>, now: seq<PortView>, q: nat, resp: Msg, i: nat)
    requires AnsweredUpTo(domain, was, now, q, resp, i) && i < |was|
    requires Numbered(was)
    ensures AnsweredUpTo(domain, was, Answered(domain, now, q, resp, i), q, resp, i + 1)
  {
    AnswerIsOwn(domain, was, q, resp, i, i);
  }

  /** Each port has forwarded an event message. */
  ghost predicate EventForwarded(domain: U8, was: seq<PortView>, now: seq<PortView>, q: nat, m: Msg, residences: seq<int>) {
    && |now| == |was| == |residences| && q < |was|
    && forall i | 0 <= i < |was| :: now[i] == AfterForward(domain, was[q], AfterSend(domain, was[q], was[i], m), m, residences[i])
  }

  lemma SentThenCompleted(domain: U8, was: seq<PortView>, mid: seq<PortView>, now: seq<PortView>, q: nat, m: Msg, residences: seq<int>)
    requires SentUpTo(domain, was, mid, q, m, |was|)
    requires CompletedUpTo(domain, mid, now, q, m, residences, |was|)
    ensures EventForwarded(domain, was, now, q, m, residences)
  {
    assert mid[q] == was[q];
  }

  /** Each port has forwarded a Sync, and the Follow_Up made from a one-step Sync. */
  ghost predicate SyncForwarded(domain: U8, was: seq<PortView>, now: seq<PortView>, q: nat, m: Msg, residences: seq<int>) {
    && |now| == |was| == |residences| && q < |was|
    && forall i | 0 <= i < |was| :: now[i] == AfterSync(domain, was[q], was[i], m, residences[i])
  }

  lemma SyncThenFollowUp(domain: U8, was: seq<PortView>, mid: seq<PortView>, now: seq<PortView>, q: nat, m: Msg, residences: seq<int>)
    requires EventForwarded(domain, was, mid, q, m.(twoStep := true), residences)
    requires if m.twoStep then now == mid else CompletedUpTo(domain, mid, now, q, FollowUpOf(m), Zeros(|was|), |was|)
    ensures SyncForwarded(domain, was, now, q, m, residences)
  {
    assert mid[q] == was[q];
  }

  /** Port p after a Sync was forwarded to it. */
  function AfterSync(domain: U8, q: PortView, p: PortView, m: Msg, residence: int): PortView {
    var m' := m.(twoStep := true);
    var v := AfterForward(domain, q, AfterSend(domain, q, p, m'), m', residence);
    if m.twoStep then v else AfterForward(domain, q, v, FollowUpOf(m), 0)
  }

  function Zeros(n: nat): (z: seq<int>)
    ensures |z| == n && forall i | 0 <= i < n :: z[i] == 0
  {
    seq(n, _ => 0)
  }

  function Residences(ingress: int, egress: seq<int>): (r: seq<int>)
    ensures |r| == |egress| && forall i | 0 <= i < |r| :: r[i] == egress[i] - ingress
  {
    seq(|egress|, i requires 0 <= i < |egress| => egress[i] - ingress)
  }

  /** A one-step Sync leaves as a two-step Sync with its correction untouched, followed by
      one Follow_Up that carries its timestamp, the residence time and what the clock knows
      of the link that it came by. */
  lemma OneStepConverted(domain: U8, q: PortView, p: PortView, m: Msg, residence: int)
    requires m.kind == SYNC && !m.twoStep && !ViewBlocked(domain, q, p, m)
    requires Filter(p.stored, StoredFor(SyncKey(q.ingress.number, m.sequenceId, m.source))) == []
    ensures AfterSync(domain, q, p, m, residence)
         == p.(sent := p.sent + [m.(twoStep := true)]
                       + [Msg(FOLLOW_UP, m.domain, m.sequenceId, m.source, m.requesting, false, m.origin,
                              0x1_0000 * (residence + q.ingress.peerDelay) + q.ingress.asymmetry)])
  {
    var m' := m.(twoStep := true);
    StoresSync(p.stored, q.ingress, m, residence);
    MatchesLast(p.stored, q.ingress, m, residence);
    hide Handle;
    assert p.sent + [m'] + [] == p.sent + [m'];
  }

  lemma StoresSync(l: seq<Txd>, q: Ingress, m: Msg, residence: int)
    requires m.kind == SYNC && Filter(l, StoredFor(SyncKey(q.number, m.sequenceId, m.source))) == []
    ensures var m' := m.(twoStep := true);
            Handle(l, Syfup(q, m', residence)) == (l + [Txd(m', residence, q.number)], None)
  {
    hide Filter;
    FirstInFilter(l, SyfupOf(q.number, m.(twoStep := true)), StoredFor(SyncKey(q.number, m.sequenceId, m.source)));
  }

  lemma MatchesLast(l: seq<Txd>, q: Ingress, m: Msg, residence: int)
    requires m.kind == SYNC && Filter(l, StoredFor(SyncKey(q.number, m.sequenceId, m.source))) == []
    ensures var l1 := l + [Txd(m.(twoStep := true), residence, q.number)];
            Handle(l1, Syfup(q, FollowUpOf(m), 0)) == (l, Some(Forwarded(q, FollowUpOf(m), residence)))
  {
    hide Filter;
    var l1 := l + [Txd(m.(twoStep := true), residence, q.number)];
    FirstInFilter(l, SyfupOf(q.number, FollowUpOf(m)), StoredFor(SyncKey(q.number, m.sequenceId, m.source)));
    FirstAppended(l, l1[|l|], SyfupOf(q.number, FollowUpOf(m)));
    hide First;
    assert Without(l1, |l|) == l;
  }

  class Bridge {
    const domain: U8
    const ports: seq<TcPort>
    /** Every message that a port may hold. */
    ghost var pool: set<Message>

    /** How the ports are. */
    ghost var views: seq<PortView>

    constructor (domain: U8, ports: seq<TcPort>)
      requires forall i | 0 <= i < |ports| :: ports[i].number == i + 1 && ports[i].Valid({})
      ensures Valid() && this.ports == ports && this.domain == domain && pool == {}
    {
      this.domain, this.ports, pool := domain, ports, {};
      views := seq(|ports|, i requires 0 <= i < |ports| reads ports => ports[i].View());
    }

    ghost predicate Valid()
      reads this, ports, pool
    {
      && |views| == |ports|
      && Numbered(views)
      && forall i | 0 <= i < |ports| :: ports[i].Valid(pool) && views[i] == ports[i].View()
    }

    /** Whether tc_blocked() keeps a message from leaving by port p. */
    predicate Blocks(q: TcPort, p: TcPort, msg: Message)
      reads q, p
    {
      Blocked(q.number, p.number, q.spanningTree, msg.domain == domain, q.state, p.state, msg.kind)
    }

    /** One turn of the completing loops. */
    method CompleteOn(ghost was: seq<PortView>, q: nat, i: nat, msg: Message, residences: seq<int>)
      requires Valid() && i < |ports| && CompletedUpTo(domain, was, views, q, msg.Value(), residences, i) && msg in pool
      requires msg.kind == SYNC || msg.kind == FOLLOW_UP || msg.kind == DELAY_REQ
      modifies this`views, ports`transmitted, ports`stored, ports`sent, pool`correction
      ensures Valid() && CompletedUpTo(domain, was, views, q, msg.Value(), residences, i + 1)
      ensures forall m | m in pool :: m.correction == old(m.correction)
    {
      hide Handle;
      var p := ports[i];
      assert views[i] == p.View() && views[q] == ports[q].View();
      assert views[q] == was[q];
      if !Blocks(ports[q], p, msg) {
        p.Complete(pool, ports[q], msg, residences[i]);
        views := views[i := p.View()];
      }
    }

    /** The completing loop of tc_fwd_event() and of tc_fwd_folup(). */
    method CompleteAll(q: nat, msg: Message, residences: seq<int>)
      requires Valid() && q < |ports| == |residences| && msg in pool
      requires msg.kind == SYNC || msg.kind == FOLLOW_UP || msg.kind == DELAY_REQ
      modifies this`views, ports`transmitted, ports`stored, ports`sent, pool`correction
      ensures Valid() && CompletedUpTo(domain, old(views), views, q, msg.Value(), residences, |ports|)
      ensures forall m | m in pool :: m.correction == old(m.correction)
    {
      for i := 0 to |ports|
        invariant Valid() && CompletedUpTo(domain, old(views), views, q, msg.Value(), residences, i)
        invariant forall m | m in pool :: m.correction == old(m.correction)
      {
        CompleteOn(old(views), q, i, msg, residences);
      }
    }

    /** tc_fwd_folup(): every egress port completes the message as it came in. */
    method FwdFolup(q: nat, msg: Message)
      requires Valid() && q < |ports| && msg in pool && msg.kind == FOLLOW_UP
      modifies this`views, ports`transmitted, ports`stored, ports`sent, pool`correction
      ensures Valid() && CompletedUpTo(domain, old(views), views, q, msg.Value(), Zeros(|ports|), |ports|)
      ensures forall m | m in pool :: m.correction == old(m.correction)
    {
      CompleteAll(q, msg, Zeros(|ports|));
    }

    method SendOn(ghost was: seq<PortView>, q: nat, i: nat, msg: Message)
      requires Valid() && i < |ports| && SentUpTo(domain, was, views, q, msg.Value(), i)
      modifies this`views, ports`sent
      ensures Valid() && SentUpTo(domain, was, views, q, msg.Value(), i + 1)
    {
      var p := ports[i];
      assert views[i] == p.View() && views[q] == ports[q].View();
      assert views[q] == was[q];
      if !Blocks(ports[q], p, msg) {
        p.sent := p.sent + [msg.Value()];
        views := views[i := p.View()];
      }
    }

    /** The sending loop of tc_fwd_event(). */
    method SendAll(q: nat, msg: Message)
      requires Valid() && q < |ports|
      modifies this`views, ports`sent
      ensures Valid() && SentUpTo(domain, old(views), views, q, msg.Value(), |ports|)
    {
      for i := 0 to |ports|
        invariant Valid() && SentUpTo(domain, old(views), views, q, msg.Value(), i)
      {
        SendOn(old(views), q, i, msg);
      }
    }

    /** tc_fwd_event(): the message leaves by every egress port, and is completed
        there with the time it spent in the clock. */
    method FwdEvent(q: nat, msg: Message, ingress: int, egress: seq<int>)
      requires Valid() && q < |ports| == |egress| && msg in pool && (msg.kind == SYNC || msg.kind == DELAY_REQ)
      modifies this`views, ports`transmitted, ports`stored, ports`sent, pool`correction
      ensures Valid() && EventForwarded(domain, old(views), views, q, msg.Value(), Residences(ingress, egress))
      ensures forall m | m in pool :: m.correction == old(m.correction)
    {
      var residences := Residences(ingress, egress);
      SendAll(q, msg);
      ghost var mid := views;
      CompleteAll(q, msg, residences);
      SentThenCompleted(domain, old(views), mid, views, q, msg.Value(), residences);
    }

    /** tc_fwd_sync(): a one-step Sync is made two-step, and the Follow_Up made for
        it is forwarded behind it. */
    method FwdSync(q: nat, msg: Message, ingress: int, egress: seq<int>)
      requires Valid() && q < |ports| == |egress| && msg.kind == SYNC && msg !in pool
      modifies this`views, ports`transmitted, ports`stored, ports`sent, pool`correction, msg, this`pool
      ensures Valid() && SyncForwarded(domain, old(views), views, q, old(msg.Value()), Residences(ingress, egress))
      ensures forall m | m in old(pool) :: m.correction == old(m.correction)
      ensures old(pool) + {msg} <= pool && fresh(pool - old(pool) - {msg})
    {
      ghost var m := msg.Value();
      var oneStep := !msg.twoStep;
      var fup := new Message(FollowUpOf(msg.Value()));
      msg.twoStep := true;
      pool := pool + {msg, fup};
      FwdBoth(q, msg, fup, oneStep, ingress, egress);
      assert SyncForwarded(domain, old(views), views, q, m, Residences(ingress, egress));
    }

    /** The Sync, and the Follow_Up made for it if it was a one-step Sync. */
    method FwdBoth(q: nat, msg: Message, fup: Message, oneStep: bool, ingress: int, egress: seq<int>)
      requires Valid() && q < |ports| == |egress| && msg in pool && fup in pool
      requires msg.kind == SYNC && msg.twoStep && fup.Value() == FollowUpOf(msg.Value())
      modifies this`views, ports`transmitted, ports`stored, ports`sent, pool`correction
      ensures Valid()
      ensures SyncForwarded(domain, old(views), views, q, old(msg.Value()).(twoStep := !oneStep), Residences(ingress, egress))
      ensures forall m | m in pool :: m.correction == old(m.correction)
    {
      hide EventForwarded, CompletedUpTo, SyncForwarded, Numbered;
      ghost var m := msg.Value().(twoStep := !oneStep);
      FwdEvent(q, msg, ingress, egress);
      ghost var mid := views;
      if oneStep {
        FwdFolup(q, fup);
      }
      SyncThenFollowUp(domain, old(views), mid, views, q, m, Residences(ingress, egress));
    }

    method RespondOn(q: nat, i: nat, resp: Message)
      requires Valid() && q < |ports| && i < |ports|
      modifies this`views, ports`transmitted, ports`stored, ports`sent, resp`correction
      ensures Valid() && views == Answered(domain, old(views), q, resp.Value(), i)
      ensures resp.correction == old(resp.correction)
    {
      hide TransparentClock.CompleteResponse, Blocked;
      var p, ingress := ports[i], ports[q];
      assert views[i] == p.View() && views[q] == ingress.View();
      if i != q && !Blocks(ingress, p, resp) {
        assert p != ingress;
        ingress.CompleteResponse(pool, p, resp);
        forall j | 0 <= j < |ports| ensures ports[j].Valid(pool) && (j != q && j != i ==> views[j] == ports[j].View()) {
        }
        views := views[q := ingress.View()][i := p.View()];
      }
    }

    method RespondNext(ghost was: seq<PortView>, q: nat, i: nat, resp: Message)
      requires Valid() && i < |ports| && Numbered(was) && AnsweredUpTo(domain, was, views, q, resp.Value(), i)
      modifies this`views, ports`transmitted, ports`stored, ports`sent, resp`correction
      ensures Valid() && AnsweredUpTo(domain, was, views, q, resp.Value(), i + 1)
      ensures resp.correction == old(resp.correction)
    {
      AnswerStep(domain, was, views, q, resp.Value(), i);
      hide AnsweredUpTo, Answered;
      RespondOn(q, i, resp);
    }

    /** A port changes its state, or what it knows of its link. */
    method ChangePort(p: nat, state: PortState, peerDelay: int, asymmetry: int)
      requires Valid() && p < |ports|
      modifies this`views, ports`state, ports`peerDelay, ports`asymmetry
      ensures Valid()
      ensures views == old(views)[p := old(views[p]).(state := state, ingress := Ingress(p + 1, peerDelay, asymmetry))]
    {
      var port := ports[p];
      assert views[p] == port.View();
      port.state, port.peerDelay, port.asymmetry := state, peerDelay, asymmetry;
      views := views[p := port.View()];
    }

    method RespondAll(ghost was: seq<PortView>, q: nat, resp: Message)
      requires Valid() && Numbered(was) && |was| == |ports| && AnsweredUpTo(domain, was, views, q, resp.Value(), 0)
      modifies this`views, ports`transmitted, ports`stored, ports`sent, resp`correction
      ensures Valid() && AnsweredUpTo(domain, was, views, q, resp.Value(), |ports|)
      ensures resp.correction == old(resp.correction)
    {
      for i := 0 to |ports|
        invariant Valid() && AnsweredUpTo(domain, was, views, q, resp.Value(), i)
        invariant resp.correction == old(resp.correction)
      {
        RespondNext(was, q, i, resp);
      }
    }

    /** tc_fwd_response() */
    method FwdResponse(q: nat, resp: Message)
      requires Valid() && q < |ports| && resp.kind == DELAY_RESP
      modifies this`views, ports`transmitted, ports`stored, ports`sent, resp`correction
      ensures Valid() && AnsweredUpTo(domain, old(views), views, q, resp.Value(), |ports|)
      ensures resp.correction == old(resp.correction)
    {
      ghost var was := views;
      assert AnsweredUpTo(domain, was, was, q, resp.Value(), 0);
      RespondAll(was, q, resp);
    }
  }
}
