/** Path delay and offset from the time stamps of an exchange (tsproc.c, tmv.h). */
module Tsproc {
  import opened CArith
  import opened RealArith
  import opened DataSets

  /** correction_to_tmv(): the whole nanoseconds of a correction. The arithmetic
      shift rounds down, negative corrections too. */
  function CorrectionToTmv(c: int): int {
    c / 0x1_0000
  }

  /** Whole nanoseconds pass through. */
  lemma CorrectionAdds(c: int, n: int)
    ensures CorrectionToTmv(c + n * 0x1_0000) == CorrectionToTmv(c) + n
  {
  }

  datatype Mode = FILTER | RAW | FILTER_WEIGHT | RAW_WEIGHT

  /** samples are the raw delays that the delay filter was given since its reset. */
  datatype TsValue = TsValue(
    mode: Mode, ratio: real, t1: int, t2: int, t3: int, t4: int,
    filteredDelay: int, filteredDelayValid: bool, samples: seq<int>)

  /** The delay filter as a function of its samples. */
  type DelayFilter = seq<int> -> int

  predicate Weighting(m: Mode) {
    m == FILTER_WEIGHT || m == RAW_WEIGHT
  }

  function Product(t: int, ratio: real): real {
    t as real * ratio
  }

  /** A time difference in the units of the other clock. */
  function Scaled(t: int, ratio: real): int {
    if ratio != 1.0 then Trunc(Product(t, ratio)) else t
  }

  function RawDelay(v: TsValue): int {
    CDiv(Scaled(v.t2 - v.t3, v.ratio) + (v.t4 - v.t1), 2)
  }

  /** tsproc_update_delay(): the new state and the delay, or failure. */
  function DelayUpdate(v: TsValue, filter: DelayFilter): (TsValue, Option<int>) {
    if v.t2 == 0 || v.t3 == 0 then (v, None)
    else
      var raw := RawDelay(v);
      var samples := v.samples + [raw];
      var w := v.(samples := samples, filteredDelay := filter(samples), filteredDelayValid := true);
      (w, Some(if v.mode == FILTER || v.mode == FILTER_WEIGHT then w.filteredDelay else raw))
  }

  datatype Offset = Offset(offset: int, weight: real)

  /** The delay an offset is computed with, if it is known. */
  function DelayForOffset(v: TsValue): Option<int> {
    match v.mode
    case FILTER => if v.filteredDelayValid then Some(v.filteredDelay) else None
    case RAW | RAW_WEIGHT => if v.t3 == 0 then None else Some(RawDelay(v))
    case FILTER_WEIGHT => if v.t3 == 0 || !v.filteredDelayValid then None else Some(v.filteredDelay)
  }

  /** Offsets measured with more than the filtered delay count for less. */
  function Weight(filtered: int, raw: int): (w: real)
    ensures 0.0 < w <= 1.0
    ensures w < 1.0 <==> 0 < filtered < raw
  {
    if filtered > 0 && raw > 0 then
      var w := filtered as real / raw as real;
      Quotient(filtered as real, raw as real);
      if w > 1.0 then 1.0 else w
    else 1.0
  }

  /** The raw delay an offset is weighted by. */
  function RawForWeight(v: TsValue): int {
    if Weighting(v.mode) then RawDelay(v) else 0
  }

  /** tsproc_update_offset() */
  function OffsetUpdate(v: TsValue): Option<Offset> {
    if v.t1 == 0 || v.t2 == 0 then None
    else
      var delay := DelayForOffset(v);
      if delay.None? then None else Some(Offset(v.t2 - v.t1 - delay.value, Weight(v.filteredDelay, RawForWeight(v))))
  }

  class TsProc {
    const mode: Mode
    const filter: DelayFilter
    var ratio: real
    var t1: int
    var t2: int
    var t3: int
    var t4: int
    var filteredDelay: int
    var filteredDelayValid: bool
    var samples: seq<int>

    constructor (mode: Mode, filter: DelayFilter)
      ensures this.filter == filter
      ensures Value() == TsValue(mode, 1.0, 0, 0, 0, 0, 0, false, [])
    {
      this.mode, this.filter := mode, filter;
      ratio := 1.0;
      t1, t2, t3, t4 := 0, 0, 0, 0;
      filteredDelay, filteredDelayValid, samples := 0, false, [];
    }

    function Value(): TsValue
      reads this
    {
      TsValue(mode, ratio, t1, t2, t3, t4, filteredDelay, filteredDelayValid, samples)
    }

    method DownTs(remote: int, local: int)
      modifies this`t1, this`t2
      ensures Value() == old(Value()).(t1 := remote, t2 := local)
    {
      t1, t2 := remote, local;
    }

    method UpTs(local: int, remote: int)
      modifies this`t3, this`t4
      ensures Value() == old(Value()).(t3 := local, t4 := remote)
    {
      t3, t4 := local, remote;
    }

    method GetRawDelay() returns (delay: int)
      ensures delay == RawDelay(Value())
    {
      var t23 := t2 - t3;
      if ratio != 1.0 {
        t23 := Trunc(Product(t23, ratio));
      }
      var t41 := t4 - t1;
      delay := CDiv(t23 + t41, 2);
    }

    method UpdateDelay() returns (delay: Option<int>)
      modifies this`filteredDelay, this`filteredDelayValid, this`samples
      ensures (Value(), delay) == DelayUpdate(old(Value()), filter)
    {
      if t2 == 0 || t3 == 0 {
        return None;
      }
      var raw := GetRawDelay();
      samples := samples + [raw];
      filteredDelay := filter(samples);
      filteredDelayValid := true;
      match mode
      case FILTER | FILTER_WEIGHT => delay := Some(filteredDelay);
      case RAW | RAW_WEIGHT => delay := Some(raw);
    }

    method UpdateOffset() returns (r: Option<Offset>)
      ensures r == OffsetUpdate(Value())
    {
      if t1 == 0 || t2 == 0 {
        return None;
      }
      var raw, delay := 0, 0;
      match mode {
        case FILTER =>
          if !filteredDelayValid {
            return None;
          }
          delay := filteredDelay;
        case RAW | RAW_WEIGHT =>
          if t3 == 0 {
            return None;
          }
          raw := GetRawDelay();
          delay := raw;
        case FILTER_WEIGHT =>
          if t3 == 0 || !filteredDelayValid {
            return None;
          }
          raw := GetRawDelay();
          delay := filteredDelay;
      }
      var weight := 1.0;
      if Weighting(mode) && filteredDelay > 0 && raw > 0 {
        weight := filteredDelay as real / raw as real;
        if weight > 1.0 {
          weight := 1.0;
        }
      }
      r := Some(Offset(t2 - t1 - delay, weight));
    }

    method Reset(full: bool)
      modifies this
      ensures var v := old(Value()).(t1 := 0, t2 := 0, t3 := 0, t4 := 0);
              Value() == if full then v.(ratio := 1.0, samples := [], filteredDelayValid := false) else v
    {
      t1, t2, t3, t4 := 0, 0, 0, 0;
      if full {
        ratio, samples, filteredDelayValid := 1.0, [], false;
      }
    }
  }
}
