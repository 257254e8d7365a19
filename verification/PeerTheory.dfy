/** Where the samples of the peer delay come from, and when many peers answer. */
module PeerTheory {
  import opened CArith
  import opened Octets
  import opened DataSets
  import opened Tsproc
  import opened PeerDelay

  // ---------------------------------------------------------------------
  // Every sample has an answered request
  // ---------------------------------------------------------------------

  /** The response b to the port's own request a, with, if it is two-step, the follow-up c
      of the same peer. */
  predicate Answered(cfg: PeerConfig, steps: seq<Step>, a: nat, b: nat, c: nat) {
    && a < b < |steps| && steps[a].Send? && steps[a].sent.Some? && steps[b].Receive?
    && steps[b].resp.requesting == cfg.identity && steps[b].resp.sequenceId == steps[a].sequenceId
    && (steps[b].resp.twoStep ==>
          && a < c < |steps| && steps[c].Complete?
          && steps[c].fup.requesting == cfg.identity && steps[c].fup.sequenceId == steps[a].sequenceId
          && steps[c].fup.source == steps[b].resp.source)
  }

  /** Half of the time from the request to the response, in the units of the peer, less the
      time that the peer had the request for. */
  function MeanOf(cfg: PeerConfig, steps: seq<Step>, a: nat, b: nat, c: nat, ratio: real): int
    requires Answered(cfg, steps, a, b, c)
  {
    var resp := steps[b].resp;
    var kept :=
      if resp.twoStep then
        steps[c].fup.origin + CorrectionToTmv(resp.correction + cfg.asymmetry) + CorrectionToTmv(steps[c].fup.correction) - resp.receipt
      else CorrectionToTmv(resp.correction + cfg.asymmetry);
    CDiv(Scaled(resp.ingress - steps[a].sent.value, ratio) - kept, 2)
  }

  function RatioOf(s: Step): real {
    if s.Receive? || s.Complete? then s.ratio else 1.0
  }

  /** The sample was taken at the step n, when the response, and the follow-up if there is
      to be one, had come. */
  predicate TakenAt(cfg: PeerConfig, steps: seq<Step>, a: nat, b: nat, c: nat, n: nat, sample: Sample) {
    && Answered(cfg, steps, a, b, c) && b <= n < |steps| && (steps[b].resp.twoStep ==> c <= n)
    && sample.raw == MeanOf(cfg, steps, a, b, c, RatioOf(steps[n]))
  }

  ghost predicate Explained(cfg: PeerConfig, steps: seq<Step>, a: nat, sample: Sample) {
    exists b: nat, c: nat, n: nat :: TakenAt(cfg, steps, a, b, c, n, sample)
  }

  /** Ever later requests, each of which explains one sample. */
  ghost predicate Explains(cfg: PeerConfig, steps: seq<Step>, log: seq<Sample>, from: seq<nat>) {
    && |from| == |log|
    && (forall k | 0 <= k < |from| :: Explained(cfg, steps, from[k], log[k]))
    && (forall k, l | 0 <= k < l < |from| :: from[k] < from[l])
  }

  predicate NoneSentAfter(steps: seq<Step>, b: nat) {
    forall k | b < k < |steps| :: !steps[k].Send?
  }

  predicate SentAt(steps: seq<Step>, a: nat, r: Request) {
    a < |steps| && steps[a] == Send(r.sequenceId, Some(r.sent))
  }

  predicate ReceivedAt(steps: seq<Step>, b: nat, m: Response) {
    b < |steps| && steps[b].Receive? && steps[b].resp == m && NoneSentAfter(steps, b)
  }

  predicate CompletedAt(steps: seq<Step>, c: nat, m: FollowUp) {
    c < |steps| && steps[c].Complete? && steps[c].fup == m && NoneSentAfter(steps, c)
  }

  /** Where what the port stores came from: a request that gave no sample, and messages
      that came after the last request. */
  ghost predicate Stores(steps: seq<Step>, v: PeerValue, from: seq<nat>) {
    && (v.req.Some? ==> exists a: nat :: SentAt(steps, a, v.req.value) && forall k | 0 <= k < |from| :: from[k] < a)
    && (v.resp.Some? ==> exists b: nat :: ReceivedAt(steps, b, v.resp.value))
    && (v.fup.Some? ==> exists c: nat :: CompletedAt(steps, c, v.fup.value))
  }

  lemma ExplainedLater(cfg: PeerConfig, steps: seq<Step>, s: Step, a: nat, sample: Sample)
    requires Explained(cfg, steps, a, sample)
    ensures Explained(cfg, steps + [s], a, sample)
  {
    var b: nat, c: nat, n: nat :| TakenAt(cfg, steps, a, b, c, n, sample);
    assert TakenAt(cfg, steps + [s], a, b, c, n, sample);
  }

  lemma StoresLater(steps: seq<Step>, s: Step, v: PeerValue, from: seq<nat>)
    requires Stores(steps, v, from) && !s.Send?
    ensures Stores(steps + [s], v, from)
  {
    var more := steps + [s];
    if v.req.Some? {
      var a: nat :| SentAt(steps, a, v.req.value) && forall k | 0 <= k < |from| :: from[k] < a;
      assert SentAt(more, a, v.req.value);
    }
    if v.resp.Some? {
      var b: nat :| ReceivedAt(steps, b, v.resp.value);
      assert ReceivedAt(more, b, v.resp.value);
    }
    if v.fup.Some? {
      var c: nat :| CompletedAt(steps, c, v.fup.value);
      assert CompletedAt(more, c, v.fup.value);
    }
  }

  lemma TimesAreAnswered(cfg: PeerConfig, steps: seq<Step>, v: PeerValue, a: nat, b: nat, c: nat)
    requires v.req.Some? && SentAt(steps, a, v.req.value) && v.resp.Some? && ReceivedAt(steps, b, v.resp.value)
    requires v.fup.Some? ==> CompletedAt(steps, c, v.fup.value)
    requires TimesOf(cfg, v).Some?
    ensures Answered(cfg, steps, a, b, c)
    ensures forall ratio :: MeanOf(cfg, steps, a, b, c, ratio) == RawDelay(Stamped(v.ts, ratio, TimesOf(cfg, v).value))
  {
  }

  /** A measurement at the last step with what is stored. */
  lemma MeasuredIsExplained(cfg: PeerConfig, steps: seq<Step>, v: PeerValue, from: seq<nat>) returns (more: seq<nat>)
    requires steps != [] && Stores(steps, v, from) && Explains(cfg, steps, v.log, from)
    ensures var w := Measured(cfg, v, RatioOf(steps[|steps| - 1])); Stores(steps, w, more) && Explains(cfg, steps, w.log, more)
  {
    var n: nat := |steps| - 1;
    var w := Measured(cfg, v, RatioOf(steps[n]));
    if w.log == v.log {
      more := from;
    } else {
      var a: nat :| SentAt(steps, a, v.req.value) && forall k | 0 <= k < |from| :: from[k] < a;
      var b: nat :| ReceivedAt(steps, b, v.resp.value);
      var c: nat := 0;
      if v.fup.Some? {
        c :| c >= 0 && CompletedAt(steps, c, v.fup.value);
      }
      TimesAreAnswered(cfg, steps, v, a, b, c);
      assert TakenAt(cfg, steps, a, b, c, n, w.log[|v.log|]);
      more := from + [a];
      hide TakenAt, TimesOf, SentAt, ReceivedAt, CompletedAt;
    }
  }

  ghost predicate NothingYet(v: PeerValue) {
    v.req.None? && v.resp.None? && v.fup.None? && v.log == []
  }

  lemma ReceivedLast(steps: seq<Step>, v: PeerValue, m: Response, from: seq<nat>)
    requires steps != [] && steps[|steps| - 1].Receive? && steps[|steps| - 1].resp == m && Stores(steps, v, from)
    ensures Stores(steps, v.(resp := Some(m)), from)
  {
    assert ReceivedAt(steps, |steps| - 1, m);
  }

  lemma CompletedLast(steps: seq<Step>, v: PeerValue, m: FollowUp, from: seq<nat>)
    requires steps != [] && steps[|steps| - 1].Complete? && steps[|steps| - 1].fup == m && Stores(steps, v, from)
    ensures Stores(steps, v.(fup := Some(m)), from)
  {
    assert CompletedAt(steps, |steps| - 1, m);
  }

  lemma RequestedLast(steps: seq<Step>, s: Step, v: PeerValue, from: seq<nat>)
    requires s.Send? && Stores(steps, v, from) && forall k | 0 <= k < |from| :: from[k] < |steps|
    ensures Stores(steps + [s], Requested(v, s.sequenceId, s.sent), from)
  {
    var more, w := steps + [s], Requested(v, s.sequenceId, s.sent);
    if s.sent.Some? {
      assert SentAt(more, |steps|, w.req.value);
    } else if v.req.Some? {
      var a: nat :| SentAt(steps, a, v.req.value) && forall k | 0 <= k < |from| :: from[k] < a;
      assert SentAt(more, a, w.req.value);
    }
  }

  lemma StepIsExplained(cfg: PeerConfig, steps: seq<Step>, s: Step, v: PeerValue, from: seq<nat>) returns (more: seq<nat>)
    requires Stores(steps, v, from) && Explains(cfg, steps, v.log, from)
    ensures var w := Apply(cfg, v, s); Stores(steps + [s], w, more) && Explains(cfg, steps + [s], w.log, more)
  {
    hide Stores, Measured, NoneSentAfter;
    forall k | 0 <= k < |from| ensures Explained(cfg, steps + [s], from[k], v.log[k]) {
      ExplainedLater(cfg, steps, s, from[k], v.log[k]);
    }
    assert forall k | 0 <= k < |from| :: Explained(cfg, steps, from[k], v.log[k]) && from[k] < |steps|;
    hide Explained;
    more := from;
    match s
    case Send(_, _) => RequestedLast(steps, s, v, from);
    case Forget => Forgotten(steps, s, v, from);
    case Receive(m, ratio) =>
      var w := Counted(v, m);
      StoresLater(steps, s, v, from);
      Recounted(steps + [s], v, w, from);
      if !Refused(v, m) {
        ReceivedLast(steps + [s], w, m, from);
        more := MeasuredIsExplained(cfg, steps + [s], w.(resp := Some(m)), from);
      }
    case Complete(m, ratio) =>
      StoresLater(steps, s, v, from);
      if v.req.Some? {
        CompletedLast(steps + [s], v, m, from);
        more := MeasuredIsExplained(cfg, steps + [s], v.(fup := Some(m)), from);
      }
  }

  lemma Recounted(steps: seq<Step>, v: PeerValue, w: PeerValue, from: seq<nat>)
    requires Stores(steps, v, from) && w.req == v.req && w.resp == v.resp && w.fup == v.fup
    ensures Stores(steps, w, from)
  {
  }

  lemma Forgotten(steps: seq<Step>, s: Step, v: PeerValue, from: seq<nat>)
    requires Stores(steps, v, from) && s.Forget?
    ensures Stores(steps + [s], v.(req := None), from)
  {
    StoresLater(steps, s, v, from);
  }

  /** Over any run each sample is half the round trip of a request of the port's own, less
      the turnaround, by the response to it and that peer's follow-up, received after it;
      and each request gives one at most. */
  lemma {:induction false} SamplesAreAnswered(cfg: PeerConfig, v: PeerValue, steps: seq<Step>) returns (from: seq<nat>)
    requires NothingYet(v)
    ensures var w := Run(cfg, v, steps); Stores(steps, w, from) && Explains(cfg, steps, w.log, from)
  {
    if steps == [] {
      from := [];
    } else {
      var before, s := steps[..|steps| - 1], steps[|steps| - 1];
      from := SamplesAreAnswered(cfg, v, before);
      assert before + [s] == steps;
      from := StepIsExplained(cfg, before, s, Run(cfg, v, before), from);
    }
  }

  lemma RunThree(cfg: PeerConfig, v: PeerValue, a: Step, b: Step, c: Step)
    ensures Run(cfg, v, [a, b, c]) == Apply(cfg, Apply(cfg, Apply(cfg, v, a), b), c)
  {
    hide Apply;
    assert [a, b, c][..2] == [a, b] && [a, b][..1] == [a] && [a][..0] == [];
    assert Run(cfg, v, [a]) == Apply(cfg, Run(cfg, v, []), a);
    assert Run(cfg, v, [a, b]) == Apply(cfg, Run(cfg, v, [a]), b);
  }

  /** A request, the response to it and the follow-up, in either order, give the mean delay
      of the link, whatever was stored before. */
  lemma ExchangeIsMeasured(
    cfg: PeerConfig, v: PeerValue, id: U16, sent: int, resp: Response, fup: FollowUp,
    there: nat, back: nat, offset: int, turnaround: nat)
    requires sent != 0 && resp.ingress != 0
    requires Answers(cfg, Request(v.issued, id, sent), resp, fup, there, back, offset, turnaround)
    ensures var lost := if resp.twoStep then LostFraction(cfg.asymmetry) else 0;
            var log := v.log + [Sample(v.issued, (there + back + lost) / 2)];
            && Run(cfg, v, [Send(id, Some(sent)), Receive(resp, 1.0), Complete(fup, 1.0)]).log == log
            && Run(cfg, v, [Send(id, Some(sent)), Complete(fup, 1.0), Receive(resp, 1.0)]).log == log
  {
    var a, b, c := Send(id, Some(sent)), Receive(resp, 1.0), Complete(fup, 1.0);
    RunThree(cfg, v, a, b, c);
    RunThree(cfg, v, a, c, b);
    var w := Requested(v, id, Some(sent));
    EitherOrder(cfg, w, resp, fup, 1.0);
    MeasuresLink(cfg, w, resp, fup, there, back, offset, turnaround);
    assert AfterFollowUp(cfg, w, fup, 1.0) == w.(fup := Some(fup));
    hide Measured, Run;
  }

  /** A local time stamp of zero stands for none: the request stays pending and there is no
      sample. */
  lemma ZeroIsNoTime(cfg: PeerConfig, v: PeerValue, ratio: real)
    requires v.req.Some? && v.resp.Some? && (v.req.value.sent == 0 || v.resp.value.ingress == 0)
    ensures var w := Measured(cfg, v, ratio);
            && w.log == v.log && w.req == v.req && w.ts.samples == v.ts.samples && w.ts.filteredDelay == v.ts.filteredDelay
  {
  }

  // ---------------------------------------------------------------------
  // Many peers
  // ---------------------------------------------------------------------

  /** A request that was sent and the responses to it. */
  datatype Round = Round(sequenceId: U16, sent: int, responses: seq<Step>)

  predicate AllReceived(steps: seq<Step>) {
    forall k | 0 <= k < |steps| :: steps[k].Receive?
  }

  /** Not all responses have one source. */
  predicate ManyPeers(steps: seq<Step>)
    requires AllReceived(steps)
  {
    exists k | 0 <= k < |steps| :: steps[k].resp.source != steps[0].resp.source
  }

  lemma {:induction false} RoundCounts(cfg: PeerConfig, v: PeerValue, steps: seq<Step>)
    requires v.req.Some? && v.resp.None? && !v.multipleDetected && AllReceived(steps)
    ensures var w := Run(cfg, v, steps);
            && (w.multipleDetected <==> ManyPeers(steps))
            && w.multipleCount == v.multipleCount + (if ManyPeers(steps) then 1 else 0)
            && (!ManyPeers(steps) && steps != [] ==> w.resp.Some? && w.resp.value.source == steps[0].resp.source)
  {
    if steps != [] {
      var before := steps[..|steps| - 1];
      RoundCounts(cfg, v, before);
      hide TimesOf, DelayUpdate;
      if before != [] {
        assert before[0] == steps[0];
      }
      assert ManyPeers(before) ==> ManyPeers(steps);
      assert ManyPeers(steps) ==> ManyPeers(before) || steps[|steps| - 1].resp.source != steps[0].resp.source;
    }
  }

  predicate AllRounds(rounds: seq<Round>) {
    forall k | 0 <= k < |rounds| :: AllReceived(rounds[k].responses)
  }

  function AfterRequest(cfg: PeerConfig, v: PeerValue, r: Round): PeerValue {
    Run(cfg, Requested(v, r.sequenceId, Some(r.sent)), r.responses)
  }

  function AfterRounds(cfg: PeerConfig, v: PeerValue, rounds: seq<Round>): PeerValue {
    if rounds == [] then v
    else AfterRequest(cfg, AfterRounds(cfg, v, rounds[..|rounds| - 1]), rounds[|rounds| - 1])
  }

  /** The number of requests at the end, in a row, that many peers responded to. */
  function InARow(rounds: seq<Round>): nat
    requires AllRounds(rounds)
  {
    if rounds == [] || !ManyPeers(rounds[|rounds| - 1].responses) then 0 else InARow(rounds[..|rounds| - 1]) + 1
  }

  lemma {:induction false} RoundsCount(cfg: PeerConfig, v: PeerValue, rounds: seq<Round>)
    requires AllRounds(rounds) && !v.multipleDetected
    ensures var w := AfterRounds(cfg, v, rounds);
            && (w.multipleDetected <==> InARow(rounds) > 0)
            && (w.multipleDetected ==> w.multipleCount == InARow(rounds))
  {
    hide Run, ManyPeers;
    if rounds != [] {
      var r, before := rounds[|rounds| - 1], rounds[..|rounds| - 1];
      RoundsCount(cfg, v, before);
      RoundCounts(cfg, Requested(AfterRounds(cfg, v, before), r.sequenceId, Some(r.sent)), r.responses);
    }
  }

  /** A second peer that responds to a request puts the port into the faulty state if and
      only if the request is not pending any more or many peers responded to each of the
      two requests before. */
  lemma ThirdInARowIsRefused(cfg: PeerConfig, v: PeerValue, rounds: seq<Round>, r: Round, m: Response)
    requires AllRounds(rounds) && !v.multipleDetected && AllReceived(r.responses) && r.responses != [] && !ManyPeers(r.responses)
    requires m.source != r.responses[0].resp.source
    ensures var w := AfterRequest(cfg, AfterRounds(cfg, v, rounds), r);
            Refused(w, m) <==> w.req.None? || InARow(rounds) >= 2
  {
    RoundsCount(cfg, v, rounds);
    RoundCounts(cfg, Requested(AfterRounds(cfg, v, rounds), r.sequenceId, Some(r.sent)), r.responses);
    hide Run, ManyPeers, AfterRounds, InARow;
  }
}
