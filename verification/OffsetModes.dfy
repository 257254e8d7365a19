/** The offset in all modes of time stamp processing, in terms of the true times, and
    what the filtered delay of a link makes of it. */
module OffsetModes {
  import opened CArith
  import opened RealArith
  import opened DataSets
  import opened Tsproc
  import opened CircularBuffer
  import MovingAverage
  import MovingMedian

  /** A link: how long it delays messages down and up, and what the configured asymmetry
      adds to a Sync and takes from a response. */
  datatype Link = Link(down: nat, up: nat, low: int, high: int)

  /** When the last Sync left, by the master's clock, and how long transparent clocks kept
      it; when the Delay_Req left; and how far the local clock is ahead. */
  datatype Exchange = Exchange(departure: int, resided: int, request: int, offset: int)

  ghost predicate Proper(l: Link) {
    l.low <= l.high
  }

  /** The time stamps of an exchange over a link. */
  predicate Stamps(v: TsValue, l: Link, e: Exchange) {
    && v.ratio == 1.0
    && v.t1 == e.departure + l.low + e.resided && v.t2 == e.departure + l.down + e.resided + e.offset
    && v.t3 == e.request + e.offset && v.t4 == e.request + l.up + l.high
  }

  /** Half the way there and back, with the asymmetry, in whole nanoseconds. */
  function MeanDelay(l: Link): int {
    (l.down + l.up + l.high - l.low) / 2
  }

  lemma RawIsMean(v: TsValue, l: Link, e: Exchange)
    requires Stamps(v, l, e) && Proper(l)
    ensures RawDelay(v) == MeanDelay(l) >= 0
  {
    assert v.t2 - v.t3 + (v.t4 - v.t1) == l.down + l.up + l.high - l.low >= 0;
  }

  /** What has to be known for an offset: the Sync, and, for the raw delay and for
      weights, the Delay_Req, and for the filtered delay a sample of it. */
  predicate Known(v: TsValue) {
    && v.t1 != 0 && v.t2 != 0
    && (v.mode != FILTER ==> v.t3 != 0)
    && (v.mode == FILTER || v.mode == FILTER_WEIGHT ==> v.filteredDelayValid)
  }

  /** In every mode: whether there is an offset; what it is wrong by; and its weight. The
      modes with the filtered delay subtract that one, the raw modes the mean. */
  lemma OffsetInEveryMode(v: TsValue, l: Link, e: Exchange)
    requires Stamps(v, l, e) && Proper(l)
    ensures OffsetUpdate(v).Some? <==> Known(v)
    ensures Known(v) ==>
              var r := OffsetUpdate(v).value;
              && (v.mode == FILTER || v.mode == FILTER_WEIGHT ==> r.offset == e.offset + l.down - l.low - v.filteredDelay)
              && (v.mode == RAW || v.mode == RAW_WEIGHT ==> r.offset == e.offset + l.down - l.low - MeanDelay(l))
              && (v.mode == FILTER || v.mode == RAW ==> r.weight == 1.0)
              && (v.mode == FILTER_WEIGHT || v.mode == RAW_WEIGHT ==>
                    if 0 < v.filteredDelay < MeanDelay(l) then r.weight * MeanDelay(l) as real == v.filteredDelay as real
                    else r.weight == 1.0)
  {
    RawIsMean(v, l, e);
    if v.mode == FILTER_WEIGHT || v.mode == RAW_WEIGHT {
      WeightIs(v.filteredDelay, MeanDelay(l));
    }
  }

  lemma WeightIs(filtered: int, raw: int)
    ensures if 0 < filtered < raw then Weight(filtered, raw) * raw as real == filtered as real
            else Weight(filtered, raw) == 1.0
  {
    if 0 < filtered < raw {
      QuotientTimes(filtered as real, raw as real);
    }
  }

  /** Likewise the delay: there is one if both messages were time stamped; it goes to the
      filter in every mode, and is returned as it is in the raw modes. */
  lemma DelayInEveryMode(v: TsValue, filter: DelayFilter, l: Link, e: Exchange)
    requires Stamps(v, l, e) && Proper(l)
    ensures var (w, delay) := DelayUpdate(v, filter);
            && (delay.Some? <==> v.t2 != 0 && v.t3 != 0)
            && (delay.None? ==> w == v)
            && (delay.Some? ==>
                  && w.samples == v.samples + [MeanDelay(l)] && w.filteredDelay == filter(w.samples) && w.filteredDelayValid
                  && Stamps(w, l, e) && w.mode == v.mode
                  && delay.value == if v.mode == FILTER || v.mode == FILTER_WEIGHT then w.filteredDelay else MeanDelay(l))
  {
    RawIsMean(v, l, e);
  }

  // ---------------------------------------------------------------------
  // A link of constant delays
  // ---------------------------------------------------------------------

  function Alike(d: int, n: nat): (s: seq<int>)
    ensures |s| == n && forall i | 0 <= i < n :: s[i] == d
  {
    seq(n, _ => d)
  }

  /** A filter that makes of equal samples that value. */
  ghost predicate Steadies(filter: DelayFilter) {
    forall d: int, n: nat | n > 0 :: filter(Alike(d, n)) == d
  }

  function Stamped(v: TsValue, l: Link, e: Exchange): (w: TsValue)
    ensures v.ratio == 1.0 ==> Stamps(w, l, e)
  {
    v.(t1 := e.departure + l.low + e.resided, t2 := e.departure + l.down + e.resided + e.offset,
       t3 := e.request + e.offset, t4 := e.request + l.up + l.high)
  }

  /** Exchanges, each followed by an update of the delay. */
  function AfterExchanges(v: TsValue, filter: DelayFilter, l: Link, es: seq<Exchange>): (w: TsValue)
    ensures w.mode == v.mode && w.ratio == v.ratio
  {
    if es == [] then v
    else DelayUpdate(Stamped(AfterExchanges(v, filter, l, es[..|es| - 1]), l, es[|es| - 1]), filter).0
  }

  /** Neither local time stamp of an exchange is zero, which stands for none. */
  predicate Visible(l: Link, e: Exchange) {
    e.departure + l.down + e.resided + e.offset != 0 && e.request + e.offset != 0
  }

  lemma {:induction false} DelaysOfLink(v: TsValue, filter: DelayFilter, l: Link, es: seq<Exchange>)
    requires v.ratio == 1.0 && v.samples == [] && Proper(l) && Steadies(filter) && forall e | e in es :: Visible(l, e)
    ensures var w := AfterExchanges(v, filter, l, es);
            w.samples == Alike(MeanDelay(l), |es|) && (es != [] ==> w.filteredDelayValid && w.filteredDelay == MeanDelay(l))
  {
    hide DelayUpdate;
    if es != [] {
      var n := |es| - 1;
      DelaysOfLink(v, filter, l, es[..n]);
      var w := AfterExchanges(v, filter, l, es[..n]);
      assert Visible(l, es[n]);
      DelayInEveryMode(Stamped(w, l, es[n]), filter, l, es[n]);
      assert Alike(MeanDelay(l), n) + [MeanDelay(l)] == Alike(MeanDelay(l), n + 1);
    }
  }

  /** Over a link of constant delays, in every mode and whatever the clock's offset was in
      the exchanges before, the offset of a further Sync is wrong by half the asymmetry of
      the link that is not configured, to within rounding, and counts in full. */
  lemma SteadyOffset(v: TsValue, filter: DelayFilter, l: Link, es: seq<Exchange>, e: Exchange)
    requires v.ratio == 1.0 && v.samples == [] && Proper(l) && Steadies(filter)
    requires es != [] && forall x | x in es :: Visible(l, x)
    requires Visible(l, e) && e.departure + l.low + e.resided != 0
    ensures var r := OffsetUpdate(Stamped(AfterExchanges(v, filter, l, es), l, e));
            && r.Some? && r.value.weight == 1.0
            && var wrong, residual := r.value.offset - e.offset, l.down - l.up - l.low - l.high;
               && (wrong * 2 == residual || wrong * 2 == residual + 1)
               && (residual == 0 && l.low == l.high ==> wrong == 0)
  {
    hide DelayUpdate, OffsetUpdate, AfterExchanges;
    DelaysOfLink(v, filter, l, es);
    OffsetInEveryMode(Stamped(AfterExchanges(v, filter, l, es), l, e), l, e);
    HalfOfDelay(l);
  }

  lemma HalfOfDelay(l: Link)
    requires Proper(l)
    ensures var wrong, residual := l.down - l.low - MeanDelay(l), l.down - l.up - l.low - l.high;
            && (wrong * 2 == residual || wrong * 2 == residual + 1)
            && (residual == 0 && l.low == l.high ==> wrong == 0)
  {
  }

  // ---------------------------------------------------------------------
  // The filters
  // ---------------------------------------------------------------------

  /** What the moving median and the moving average return for their samples. */
  function MedianOfLast(length: nat): DelayFilter {
    (s: seq<int>) => if s == [] || length == 0 then 0 else MovingMedian.MedianOf(Last(s, length))
  }

  function AverageOfLast(length: nat): DelayFilter {
    (s: seq<int>) => if s == [] || length == 0 then 0 else MovingAverage.Average(Last(s, length))
  }

  lemma LastAlike(d: int, n: nat, length: nat)
    requires n > 0 && length > 0
    ensures Last(Alike(d, n), length) == Alike(d, if n <= length then n else length)
  {
  }

  lemma MedianOfAlike(d: int, n: nat)
    requires n > 0
    ensures MovingMedian.MedianOf(Alike(d, n)) == d
  {
    var s := MovingMedian.Sort(Alike(d, n));
    forall k | 0 <= k < n ensures s[k] == d {
      assert s[k] in multiset(s) && s[k] in Alike(d, n);
    }
  }

  lemma MedianSteadies(length: nat)
    requires length > 0
    ensures Steadies(MedianOfLast(length))
  {
    hide MovingMedian.MedianOf;
    forall d: int, n: nat | n > 0 ensures MedianOfLast(length)(Alike(d, n)) == d {
      LastAlike(d, n, length);
      MedianOfAlike(d, if n <= length then n else length);
    }
  }

  lemma {:induction false} SumOfAlike(d: int, n: nat)
    ensures MovingAverage.Sum(Alike(d, n)) == n * d
  {
    if n > 0 {
      SumOfAlike(d, n - 1);
      assert Alike(d, n)[..n - 1] == Alike(d, n - 1);
      assert n * d == (n - 1) * d + d;
    }
  }

  lemma Exactly(d: int, n: nat)
    requires n > 0
    ensures CDiv(n * d, n) == d
  {
    if d >= 0 {
      assert n * d >= 0;
      DivideProduct(d, n);
    } else {
      assert n * (-d) == -(n * d) && n * (-d) > 0;
      DivideProduct(-d, n);
    }
  }

  lemma DivideProduct(d: nat, n: nat)
    requires n > 0
    ensures (n * d) / n == d
  {
    var x := n * d;
    var q := x / n;
    assert n * q <= x < n * q + n;
    Distance(n, d - q);
    assert n * (d - q) == n * d - n * q;
  }

  lemma Distance(n: int, k: int)
    requires n > 0
    ensures (k > 0 ==> n * k >= n) && (k < 0 ==> n * k <= -n)
  {
  }

  lemma AverageSteadies(length: nat)
    requires length > 0
    ensures Steadies(AverageOfLast(length))
  {
    hide CDiv;
    forall d: int, n: nat | n > 0 ensures AverageOfLast(length)(Alike(d, n)) == d {
      var m := if n <= length then n else length;
      LastAlike(d, n, length);
      SumOfAlike(d, m);
      Exactly(d, m);
    }
  }

  // ---------------------------------------------------------------------
  // Rate ratios
  // ---------------------------------------------------------------------

  /** The raw delay is half the time there, in the peer's units, and back, to within less
      than a nanosecond. */
  lemma RawWithRatio(v: TsValue)
    ensures var exact := (v.t2 - v.t3) as real * v.ratio + (v.t4 - v.t1) as real;
            -2.0 < 2.0 * RawDelay(v) as real - exact < 2.0
            && (v.ratio == 1.0 ==> -1.0 <= 2.0 * RawDelay(v) as real - exact <= 1.0)
  {
    ScaledIsClose(v.t2 - v.t3, v.ratio);
    HalfIsClose(Scaled(v.t2 - v.t3, v.ratio) + (v.t4 - v.t1));
    hide Scaled, CDiv;
  }

  lemma ScaledIsClose(t: int, ratio: real)
    ensures -1.0 < Scaled(t, ratio) as real - t as real * ratio < 1.0
    ensures ratio == 1.0 ==> Scaled(t, ratio) as real == t as real * ratio
  {
  }

  lemma HalfIsClose(x: int)
    ensures -1 <= 2 * CDiv(x, 2) - x <= 1
  {
  }

  /** With the true ratio of the clocks' rates and a link that delays both messages
      alike, the raw delay is right to within a nanosecond: turnaround is how long the
      peer took, and there is how long the local clock saw the exchange take. */
  lemma RatioMeasuresLink(v: TsValue, delay: real, turnaround: int)
    requires v.t1 - v.t4 == turnaround && (v.t2 - v.t3) as real * v.ratio == 2.0 * delay + turnaround as real
    ensures -1.0 < RawDelay(v) as real - delay < 1.0
  {
    RawWithRatio(v);
  }
}
