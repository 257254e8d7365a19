/** The peer delay mechanism of one port (port.c, sections 11.4 and 9.5 of
    IEEE Std 1588-2008). */
module PeerDelay {
  import opened CArith
  import opened Octets
  import opened DataSets
  import opened Tsproc

  /** A Pdelay_Req that was sent; serial counts the requests of the port. */
  datatype Request = Request(serial: nat, sequenceId: U16, sent: int)

  /** receipt is the requestReceiptTimestamp, ingress the local time stamp. */
  datatype Response = Response(
    sequenceId: U16, source: PortIdentity, requesting: PortIdentity, twoStep: bool,
    ingress: int, receipt: int, correction: int)

  datatype FollowUp = FollowUp(
    sequenceId: U16, source: PortIdentity, requesting: PortIdentity, origin: int, correction: int)

  /** A delay that was given to the filter, for a request. */
  datatype Sample = Sample(serial: nat, raw: int)

  datatype PeerConfig = PeerConfig(identity: PortIdentity, asymmetry: int, filter: DelayFilter)

  /** log is not part of the port: it records what was given to the filter. */
  datatype PeerValue = PeerValue(
    req: Option<Request>, resp: Option<Response>, fup: Option<FollowUp>,
    multipleDetected: bool, multipleCount: nat, issued: nat, ts: TsValue, log: seq<Sample>)

  /** The times of an exchange: sent and returned by the local clock, received
      and answered by the peer's, the last corrected. */
  datatype Times = Times(sent: int, received: int, answered: int, returned: int)

  /** The checks of port_peer_delay(), and the times if they are passed. */
  function TimesOf(cfg: PeerConfig, v: PeerValue): Option<Times> {
    if v.req.None? || v.resp.None? then None
    else
      var req, rsp := v.req.value, v.resp.value;
      if rsp.requesting != cfg.identity || rsp.sequenceId != req.sequenceId then None
      else
        var c1 := CorrectionToTmv(rsp.correction + cfg.asymmetry);
        if !rsp.twoStep then Some(Times(req.sent, 0, c1, rsp.ingress))
        else if v.fup.None? then None
        else
          var fup := v.fup.value;
          if fup.requesting != cfg.identity || fup.sequenceId != rsp.sequenceId || fup.source != rsp.source then None
          else Some(Times(req.sent, rsp.receipt, fup.origin + (c1 + CorrectionToTmv(fup.correction)), rsp.ingress))
  }

  function Stamped(ts: TsValue, ratio: real, t: Times): TsValue {
    ts.(ratio := ratio, t3 := t.sent, t4 := t.received, t1 := t.answered, t2 := t.returned)
  }

  /** port_peer_delay(): a request that gave a sample is dropped. */
  function Measured(cfg: PeerConfig, v: PeerValue, ratio: real): PeerValue {
    var t := TimesOf(cfg, v);
    if t.None? then v
    else
      var ts := Stamped(v.ts, ratio, t.value);
      var (ts', delay) := DelayUpdate(ts, cfg.filter);
      if delay.None? then v.(ts := ts)
      else v.(ts := ts', req := None, log := v.log + [Sample(v.req.value.serial, RawDelay(ts))])
  }

  /** port_delay_request(): sent is the time stamp of the request, if it could be
      sent; otherwise the one before stays pending. */
  function Requested(v: PeerValue, sequenceId: U16, sent: Option<int>): PeerValue {
    v.(resp := None, fup := None, issued := v.issued + 1,
       req := if sent.Some? then Some(Request(v.issued, sequenceId, sent.value)) else v.req,
       multipleDetected := false, multipleCount := if v.multipleDetected then v.multipleCount else 0)
  }

  /** A second peer that answers the same request. */
  predicate Multiple(v: PeerValue, m: Response) {
    v.resp.Some? && v.resp.value.source != m.source
  }

  function Counted(v: PeerValue, m: Response): PeerValue {
    if Multiple(v, m) && !v.multipleDetected then v.(multipleDetected := true, multipleCount := v.multipleCount + 1)
    else v
  }

  /** Responses that put the port into the faulty state: of many peers to three
      requests in a row, or without a request. */
  predicate Refused(v: PeerValue, m: Response) {
    (Multiple(v, m) && Counted(v, m).multipleCount >= 3) || v.req.None?
  }

  /** process_pdelay_resp() */
  function AfterResponse(cfg: PeerConfig, v: PeerValue, m: Response, ratio: real): PeerValue {
    var w := Counted(v, m);
    if Refused(v, m) then w
    else Measured(cfg, w.(resp := Some(m)), ratio)
  }

  /** process_pdelay_resp_fup() */
  function AfterFollowUp(cfg: PeerConfig, v: PeerValue, m: FollowUp, ratio: real): PeerValue {
    if v.req.None? then v else Measured(cfg, v.(fup := Some(m)), ratio)
  }

  // ---------------------------------------------------------------------
  // The port
  // ---------------------------------------------------------------------

  class Port {
    const identity: PortIdentity
    const asymmetry: int
    const tsproc: TsProc
    var peerDelayReq: Option<Request>
    var peerDelayResp: Option<Response>
    var peerDelayFup: Option<FollowUp>
    var multiplePdrDetected: bool
    var multipleSeqPdrCount: nat
    var seqnum: nat
    ghost var log: seq<Sample>

    constructor (cfg: PeerConfig, mode: Mode)
      ensures Config() == cfg && fresh(tsproc)
      ensures Value() == PeerValue(None, None, None, false, 0, 0, TsValue(mode, 1.0, 0, 0, 0, 0, 0, false, []), [])
    {
      identity, asymmetry := cfg.identity, cfg.asymmetry;
      tsproc := new TsProc(mode, cfg.filter);
      peerDelayReq, peerDelayResp, peerDelayFup := None, None, None;
      multiplePdrDetected, multipleSeqPdrCount, seqnum, log := false, 0, 0, [];
    }

    function Config(): PeerConfig {
      PeerConfig(identity, asymmetry, tsproc.filter)
    }

    ghost function Value(): PeerValue
      reads this, tsproc
    {
      PeerValue(peerDelayReq, peerDelayResp, peerDelayFup, multiplePdrDetected, multipleSeqPdrCount, seqnum, tsproc.Value(), log)
    }

    method PdelayRequest(sequenceId: U16, sent: Option<int>) returns (ok: bool)
      modifies this
      ensures Value() == Requested(old(Value()), sequenceId, sent) && ok == sent.Some?
    {
      peerDelayResp, peerDelayFup := None, None;
      if !multiplePdrDetected {
        multipleSeqPdrCount := 0;
      }
      multiplePdrDetected := false;
      seqnum := seqnum + 1;
      if sent.None? {
        return false;
      }
      peerDelayReq := Some(Request(seqnum - 1, sequenceId, sent.value));
      ok := true;
    }

    method Measure(t: Times, ratio: real)
      requires peerDelayReq.Some? && TimesOf(Config(), Value()) == Some(t)
      modifies this`peerDelayReq, this`log, tsproc
      ensures Value() == Measured(Config(), old(Value()), ratio)
    {
      ghost var v := Value();
      tsproc.ratio := ratio;
      tsproc.UpTs(t.sent, t.received);
      tsproc.DownTs(t.answered, t.returned);
      ghost var ts := tsproc.Value();
      assert ts == Stamped(v.ts, ratio, t);
      var delay := tsproc.UpdateDelay();
      if delay.None? {
        return;
      }
      log := log + [Sample(peerDelayReq.value.serial, RawDelay(ts))];
      peerDelayReq := None;
    }

    method PeerDelay(ratio: real)
      requires peerDelayReq.Some?
      modifies this`peerDelayReq, this`log, tsproc
      ensures Value() == Measured(Config(), old(Value()), ratio)
    {
      if peerDelayResp.None? {
        return;
      }
      var req, rsp := peerDelayReq.value, peerDelayResp.value;
      if rsp.requesting != identity || rsp.sequenceId != req.sequenceId {
        return;
      }
      var t1, t4, c1 := req.sent, rsp.ingress, CorrectionToTmv(rsp.correction + asymmetry);
      var t2, t3, c2 := 0, 0, 0;
      if rsp.twoStep {
        if peerDelayFup.None? {
          return;
        }
        var fup := peerDelayFup.value;
        if fup.requesting != identity || fup.sequenceId != rsp.sequenceId || fup.source != rsp.source {
          return;
        }
        t2, t3, c2 := rsp.receipt, fup.origin, CorrectionToTmv(fup.correction);
      }
      Measure(Times(t1, t2, t3 + (c1 + c2), t4), ratio);
    }

    method ProcessResp(m: Response, ratio: real) returns (ok: bool)
      modifies this, tsproc
      ensures Value() == AfterResponse(Config(), old(Value()), m, ratio)
      ensures ok <==> !Refused(old(Value()), m)
    {
      if peerDelayResp.Some? && peerDelayResp.value.source != m.source {
        if !multiplePdrDetected {
          multiplePdrDetected := true;
          multipleSeqPdrCount := multipleSeqPdrCount + 1;
        }
        if multipleSeqPdrCount >= 3 {
          return false;
        }
      }
      if peerDelayReq.None? {
        return false;
      }
      peerDelayResp := Some(m);
      PeerDelay(ratio);
      ok := true;
    }

    method ProcessFup(m: FollowUp, ratio: real)
      modifies this, tsproc
      ensures Value() == AfterFollowUp(Config(), old(Value()), m, ratio)
    {
      if peerDelayReq.None? {
        return;
      }
      peerDelayFup := Some(m);
      PeerDelay(ratio);
    }
  }

  // ---------------------------------------------------------------------
  // Runs
  // ---------------------------------------------------------------------

  /** Forget: the clock jumped, or the port was disabled. */
  datatype Step =
    | Send(sequenceId: U16, sent: Option<int>)
    | Receive(resp: Response, ratio: real)
    | Complete(fup: FollowUp, ratio: real)
    | Forget

  function Apply(cfg: PeerConfig, v: PeerValue, s: Step): PeerValue {
    match s
    case Send(sequenceId, sent) => Requested(v, sequenceId, sent)
    case Receive(m, ratio) => AfterResponse(cfg, v, m, ratio)
    case Complete(m, ratio) => AfterFollowUp(cfg, v, m, ratio)
    case Forget => v.(req := None)
  }

  function Run(cfg: PeerConfig, v: PeerValue, steps: seq<Step>): PeerValue {
    if steps == [] then v else Apply(cfg, Run(cfg, v, steps[..|steps| - 1]), steps[|steps| - 1])
  }

  /** Samples come from ever later requests, and none yet from the one pending. */
  ghost predicate OneEach(v: PeerValue) {
    && (forall i, j | 0 <= i < j < |v.log| :: v.log[i].serial < v.log[j].serial)
    && (forall i | 0 <= i < |v.log| :: v.log[i].serial < (if v.req.Some? then v.req.value.serial else v.issued))
    && (v.req.Some? ==> v.req.value.serial < v.issued)
  }

  lemma MeasuredKeepsOneEach(cfg: PeerConfig, v: PeerValue, ratio: real)
    requires OneEach(v)
    ensures OneEach(Measured(cfg, v, ratio))
  {
  }

  lemma StepKeepsOneEach(cfg: PeerConfig, v: PeerValue, s: Step)
    requires OneEach(v)
    ensures OneEach(Apply(cfg, v, s))
  {
    hide Measured;
    match s
    case Send(_, _) | Forget =>
    case Receive(m, ratio) =>
      MeasuredKeepsOneEach(cfg, Counted(v, m).(resp := Some(m)), ratio);
    case Complete(m, ratio) =>
      MeasuredKeepsOneEach(cfg, v.(fup := Some(m)), ratio);
  }

  /** Every request gives at most one sample, over any run. */
  lemma {:induction false} OneSampleEach(cfg: PeerConfig, v: PeerValue, steps: seq<Step>)
    requires OneEach(v)
    ensures OneEach(Run(cfg, v, steps))
  {
    if steps != [] {
      OneSampleEach(cfg, v, steps[..|steps| - 1]);
      StepKeepsOneEach(cfg, Run(cfg, v, steps[..|steps| - 1]), steps[|steps| - 1]);
    }
  }

  /** A response and its follow-up, in either order, give the same samples; if
      the response is two-step they leave the same state. */
  lemma EitherOrder(cfg: PeerConfig, v: PeerValue, resp: Response, fup: FollowUp, ratio: real)
    requires v.req.Some? && v.resp.None? && v.fup.None?
    ensures var a := AfterFollowUp(cfg, AfterResponse(cfg, v, resp, ratio), fup, ratio);
            var b := AfterResponse(cfg, AfterFollowUp(cfg, v, fup, ratio), resp, ratio);
            && a.log == b.log && a.ts.samples == b.ts.samples && a.ts.filteredDelay == b.ts.filteredDelay
            && (resp.twoStep ==> a == b)
  {
  }

  /** The fraction of a nanosecond that is lost when an asymmetry is added to one
      correction and subtracted from another. */
  function LostFraction(asymmetry: int): (r: int)
    ensures r == -(CorrectionToTmv(asymmetry) + CorrectionToTmv(-asymmetry))
    ensures 0 <= r <= 1 && (r == 0 <==> asymmetry % 0x1_0000 == 0)
  {
    if asymmetry % 0x1_0000 == 0 then 0 else 1
  }

  /** The answer of a peer that takes a request with its correction, which is the
      asymmetry subtracted, over into the response or the follow-up. */
  predicate Answers(cfg: PeerConfig, req: Request, resp: Response, fup: FollowUp, there: nat, back: nat, offset: int, turnaround: nat) {
    && resp.requesting == cfg.identity && resp.sequenceId == req.sequenceId
    && fup.requesting == cfg.identity && fup.sequenceId == resp.sequenceId && fup.source == resp.source
    && resp.ingress == req.sent + there + turnaround + back
    && (if resp.twoStep then
          && resp.correction == 0 && fup.correction == -cfg.asymmetry
          && resp.receipt == req.sent + there + offset
          && fup.origin == resp.receipt + turnaround
        else resp.correction == -cfg.asymmetry + turnaround * 0x1_0000)
  }

  /** What is measured: with equal rates, any configured asymmetry, and a peer whose
      clock is ahead by any offset and that answers after any turnaround, the mean
      delay of the link, whether the peer sends time stamps or the turnaround time
      itself.  A two-step exchange with a fractional asymmetry can gain a nanosecond
      before the division. */
  lemma MeasuresLink(
    cfg: PeerConfig, v: PeerValue, resp: Response, fup: FollowUp, there: nat, back: nat, offset: int, turnaround: nat)
    requires v.req.Some? && v.req.value.sent != 0 && resp.ingress != 0
    requires Answers(cfg, v.req.value, resp, fup, there, back, offset, turnaround)
    ensures var lost := if resp.twoStep then LostFraction(cfg.asymmetry) else 0;
            Measured(cfg, v.(resp := Some(resp), fup := Some(fup)), 1.0).log
            == v.log + [Sample(v.req.value.serial, (there + back + lost) / 2)]
  {
    var w := v.(resp := Some(resp), fup := Some(fup));
    CorrectionAdds(0, turnaround);
    var sent, lost := v.req.value.sent, if resp.twoStep then LostFraction(cfg.asymmetry) else 0;
    assert TimesOf(cfg, w) == Some(
      if resp.twoStep then
        Times(sent, sent + there + offset, sent + there + offset + turnaround - lost, resp.ingress)
      else Times(sent, 0, turnaround, resp.ingress));
    assert RawDelay(Stamped(v.ts, 1.0, TimesOf(cfg, w).value)) == (there + back + lost) / 2;
  }
}
