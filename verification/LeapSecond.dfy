/** Leap seconds and the UTC offset (util.c, clock.c). */
module LeapSecond {
  import opened Servo

  const NS_PER_SEC: int := 1000000000
  const NS_PER_HOUR: int := 3600 * NS_PER_SEC
  const NS_PER_DAY: int := 24 * NS_PER_HOUR

  /** is_utc_ambiguous() */
  predicate Ambiguous(ts: int) {
    NS_PER_DAY - ts % NS_PER_DAY <= NS_PER_SEC
  }

  /** The leap status, and the leap and the offset corrected by it. */
  datatype Status = Status(status: int, leap: int, utcOffset: int)

  /** The day is split at six hours after midnight. */
  predicate Early(ts: int) {
    ts % NS_PER_DAY <= 6 * NS_PER_HOUR
  }

  function LeapStatus(ts: int, leapSet: int, leap: int): int {
    if Early(ts) then 0 else if leapSet == 0 then leap else leapSet
  }

  function Fixed(status: int, leap: int, utcOffset: int): Status {
    if leap == 0 && status != 0 then Status(status, status, utcOffset - status)
    else if leap != 0 && status == 0 then Status(status, status, utcOffset + leap)
    else Status(status, leap, utcOffset)
  }

  /** leap_second_status() */
  method LeapSecondStatus(ts: int, leapSet: int, leap: int, utcOffset: int) returns (status: int, leap': int, utcOffset': int)
    ensures Status(status, leap', utcOffset') == Fixed(LeapStatus(ts, leapSet, leap), leap, utcOffset)
  {
    status, leap', utcOffset' := leapSet, leap, utcOffset;
    if ts % NS_PER_DAY > 6 * NS_PER_HOUR {
      if status == 0 {
        status := leap';
      }
    } else {
      if status != 0 {
        status := 0;
      }
    }
    if leap' == 0 && status != 0 {
      utcOffset' := utcOffset' - status;
      leap' := status;
    } else if leap' != 0 && status == 0 {
      utcOffset' := utcOffset' + leap';
      leap' := status;
    }
  }

  // ---------------------------------------------------------------------
  // One leap second
  // ---------------------------------------------------------------------

  /** A leap second (1 or -1) at midnight: the master announces it from announced on,
      and at switch, early or late, takes the announcement back and announces the
      new offset. */
  datatype Timeline = Timeline(midnight: int, leap: int, announced: int, switch: int, utcOffset: int)

  predicate Proper(t: Timeline) {
    && t.midnight % NS_PER_DAY == 0 && (t.leap == 1 || t.leap == -1)
    && t.midnight - 12 * NS_PER_HOUR <= t.announced <= t.midnight
    && t.announced <= t.switch <= t.midnight + 6 * NS_PER_HOUR
  }

  function AnnouncedLeap(t: Timeline, ts: int): int {
    if t.announced <= ts < t.switch then t.leap else 0
  }

  function AnnouncedOffset(t: Timeline, ts: int): int {
    if ts < t.switch then t.utcOffset else t.utcOffset + t.leap
  }

  function TrueOffset(t: Timeline, ts: int): int {
    if ts < t.midnight then t.utcOffset else t.utcOffset + t.leap
  }

  /** leap_set after a number of queries. */
  function LeapSet(t: Timeline, queries: seq<int>): int {
    if queries == [] then 0
    else
      var ts := queries[|queries| - 1];
      LeapStatus(ts, LeapSet(t, queries[..|queries| - 1]), AnnouncedLeap(t, ts))
  }

  /** A query found the leap second announced, before midnight. */
  ghost predicate Seen(t: Timeline, queries: seq<int>) {
    exists i | 0 <= i < |queries| :: t.announced <= queries[i] < t.switch && queries[i] < t.midnight
  }

  /** A query fell into the early hours of a day, from the leap on. */
  ghost predicate Cleared(t: Timeline, queries: seq<int>) {
    exists i | 0 <= i < |queries| :: t.midnight <= queries[i] && Early(queries[i])
  }

  ghost predicate InOrder(queries: seq<int>) {
    forall i, j | 0 <= i < j < |queries| :: queries[i] <= queries[j]
  }

  lemma TimeOfDay(t: Timeline, ts: int)
    requires Proper(t)
    ensures t.midnight - 12 * NS_PER_HOUR <= ts < t.midnight ==> !Early(ts)
    ensures t.midnight <= ts <= t.midnight + 6 * NS_PER_HOUR ==> Early(ts)
  {
    var m := t.midnight;
    if m - NS_PER_DAY <= ts < m {
      DayRemainder(m / NS_PER_DAY - 1, ts - (m - NS_PER_DAY));
    } else if m <= ts < m + NS_PER_DAY {
      DayRemainder(m / NS_PER_DAY, ts - m);
    }
  }

  lemma DayRemainder(day: int, time: int)
    requires 0 <= time < NS_PER_DAY
    ensures (day * NS_PER_DAY + time) % NS_PER_DAY == time
  {
  }

  lemma SeenStep(t: Timeline, before: seq<int>, ts: int)
    ensures Seen(t, before + [ts]) <==> Seen(t, before) || (t.announced <= ts < t.switch && ts < t.midnight)
    ensures Cleared(t, before + [ts]) <==> Cleared(t, before) || (t.midnight <= ts && Early(ts))
  {
    var queries := before + [ts];
    assert queries[|before|] == ts && forall i | 0 <= i < |before| :: queries[i] == before[i];
  }

  lemma OrderFacts(t: Timeline, queries: seq<int>)
    requires InOrder(queries) && queries != []
    ensures Seen(t, queries) ==> queries[|queries| - 1] >= t.announced
    ensures Cleared(t, queries) ==> queries[|queries| - 1] >= t.midnight
  {
    if i :| 0 <= i < |queries| && t.announced <= queries[i] && i < |queries| - 1 {
      assert queries[i] <= queries[|queries| - 1];
    }
    if i :| 0 <= i < |queries| && t.midnight <= queries[i] && i < |queries| - 1 {
      assert queries[i] <= queries[|queries| - 1];
    }
  }

  lemma InOrderBefore(before: seq<int>, ts: int)
    requires InOrder(before + [ts])
    ensures InOrder(before)
  {
    var queries := before + [ts];
    assert forall i | 0 <= i < |before| :: queries[i] == before[i];
  }

  lemma LeapSetStep(t: Timeline, before: seq<int>, ts: int)
    ensures LeapSet(t, before + [ts]) == LeapStatus(ts, LeapSet(t, before), AnnouncedLeap(t, ts))
  {
    hide LeapStatus, AnnouncedLeap;
    assert (before + [ts])[..|before|] == before;
  }

  /** One query, in terms of whether the leap was seen and cleared before. */
  lemma StatusStep(t: Timeline, ts: int, seen: bool, cleared: bool)
    requires Proper(t)
    requires (seen ==> t.announced <= ts) && (cleared ==> t.midnight <= ts)
    ensures var nowSeen := seen || (t.announced <= ts < t.switch && ts < t.midnight);
            var nowCleared := cleared || (t.midnight <= ts && Early(ts));
            LeapStatus(ts, if seen && !cleared then t.leap else 0, AnnouncedLeap(t, ts))
            == if nowSeen && !nowCleared then t.leap else 0
  {
    TimeOfDay(t, ts);
    hide Early;
  }

  lemma NoQueries(t: Timeline)
    ensures LeapSet(t, []) == 0 && !Seen(t, [])
  {
  }

  lemma OrderBefore(t: Timeline, before: seq<int>, ts: int)
    requires InOrder(before + [ts])
    ensures (Seen(t, before) ==> t.announced <= ts) && (Cleared(t, before) ==> t.midnight <= ts)
  {
    SeenStep(t, before, ts);
    OrderFacts(t, before + [ts]);
    hide *;
    assert (before + [ts])[|before|] == ts;
  }

  /** Over any run of queries in order, the status is non-zero from when the
      announcement was seen until a query in the early hours clears it. */
  lemma {:induction false} StatusOverRun(t: Timeline, queries: seq<int>)
    requires Proper(t) && InOrder(queries)
    ensures LeapSet(t, queries) == if Seen(t, queries) && !Cleared(t, queries) then t.leap else 0
  {
    hide *;
    if queries == [] {
      NoQueries(t);
    } else {
      var n := |queries| - 1;
      var before, ts := queries[..n], queries[n];
      assert queries == before + [ts];
      InOrderBefore(before, ts);
      StatusOverRun(t, before);
      LeapSetStep(t, before, ts);
      SeenStep(t, before, ts);
      OrderBefore(t, before, ts);
      StatusStep(t, ts, Seen(t, before), Cleared(t, before));
    }
  }

  /** The status is non-zero exactly before the leap, once it was seen, if and
      only if a seen leap was cleared by a query in the early hours after it. */
  lemma StatusBeforeLeap(t: Timeline, queries: seq<int>)
    requires Proper(t) && InOrder(queries) && queries != []
    ensures var ts := queries[|queries| - 1];
            (LeapSet(t, queries) == (if Seen(t, queries) && ts < t.midnight then t.leap else 0))
            <==> !(t.midnight <= ts && Seen(t, queries) && !Cleared(t, queries))
  {
    StatusOverRun(t, queries);
    OrderFacts(t, queries);
  }

  lemma OffsetCases(t: Timeline, ts: int, seen: bool, cleared: bool)
    requires Proper(t)
    requires (seen ==> t.announced <= ts) && (cleared ==> t.midnight <= ts)
    requires t.announced <= ts < t.switch && ts < t.midnight ==> seen
    requires t.midnight <= ts <= t.midnight + 6 * NS_PER_HOUR ==> cleared
    ensures var status := if seen && !cleared then t.leap else 0;
            var fixed := Fixed(status, AnnouncedLeap(t, ts), AnnouncedOffset(t, ts));
            && fixed.leap == fixed.status == status
            && (fixed.utcOffset == TrueOffset(t, ts)
                <==> !(t.switch <= ts < t.midnight && !seen) && !(t.midnight <= ts && seen && !cleared))
  {
  }

  /** The corrected offset is the true one, except between an early switch and
      midnight if the announcement was never seen, and after the early hours if
      it was seen and no query fell into them. */
  lemma CorrectedOffset(t: Timeline, queries: seq<int>)
    requires Proper(t) && InOrder(queries) && queries != []
    ensures var ts := queries[|queries| - 1];
            var fixed := Fixed(LeapSet(t, queries), AnnouncedLeap(t, ts), AnnouncedOffset(t, ts));
            && fixed.leap == fixed.status == LeapSet(t, queries)
            && (fixed.utcOffset == TrueOffset(t, ts)
                <==> && !(t.switch <= ts < t.midnight && !Seen(t, queries))
                     && !(t.midnight <= ts && Seen(t, queries) && !Cleared(t, queries)))
  {
    var n := |queries| - 1;
    var ts := queries[n];
    StatusOverRun(t, queries);
    OrderFacts(t, queries);
    assert queries == queries[..n] + [ts];
    SeenStep(t, queries[..n], ts);
    TimeOfDay(t, ts);
    OffsetCases(t, ts, Seen(t, queries), Cleared(t, queries));
  }

  /** A gap over the first six hours after midnight is enough: the offset is then
      still corrected by a leap that is over. */
  lemma GapKeepsLeap()
    ensures var t := Timeline(NS_PER_DAY, 1, NS_PER_DAY - 12 * NS_PER_HOUR, NS_PER_DAY, 36);
            var queries := [NS_PER_DAY - NS_PER_HOUR, NS_PER_DAY + 7 * NS_PER_HOUR];
            var ts := queries[1];
            && Proper(t) && InOrder(queries) && LeapSet(t, queries) == 1
            && Fixed(LeapSet(t, queries), AnnouncedLeap(t, ts), AnnouncedOffset(t, ts)).utcOffset == 36
            && TrueOffset(t, ts) == 37
  {
    var queries := [NS_PER_DAY - NS_PER_HOUR, NS_PER_DAY + 7 * NS_PER_HOUR];
    var t := Timeline(NS_PER_DAY, 1, NS_PER_DAY - 12 * NS_PER_HOUR, NS_PER_DAY, 36);
    assert queries[..1] == [NS_PER_DAY - NS_PER_HOUR] && queries[..1][..0] == [];
    assert LeapSet(t, queries[..1]) == 1;
  }

  /** A master that switches an hour early, found announcing only after that: the
      offset is already that of the next day. */
  lemma EarlySwitchUnseen()
    ensures var t := Timeline(NS_PER_DAY, 1, NS_PER_DAY - 12 * NS_PER_HOUR, NS_PER_DAY - NS_PER_HOUR, 36);
            var queries := [NS_PER_DAY - NS_PER_HOUR];
            var ts := queries[0];
            && Proper(t) && InOrder(queries) && LeapSet(t, queries) == 0
            && Fixed(LeapSet(t, queries), AnnouncedLeap(t, ts), AnnouncedOffset(t, ts)).utcOffset == 37
            && TrueOffset(t, ts) == 36
  {
    var queries := [NS_PER_DAY - NS_PER_HOUR];
    assert queries[..0] == [];
  }

  // ---------------------------------------------------------------------
  // The clock
  // ---------------------------------------------------------------------

  /** The announced time properties. */
  datatype TimeProperties = TimeProperties(
    currentUtcOffset: int, leap61: bool, leap59: bool, utcOffValid: bool, ptpTimescale: bool, timeTraceable: bool)

  function Leap(tds: TimeProperties): int {
    if tds.leap61 then 1 else if tds.leap59 then -1 else 0
  }

  /** What clock_utc_correct() reads and changes of a clock. */
  datatype UtcValue = UtcValue(
    tds: TimeProperties, utcOffset: int, utcOffsetSet: int, leapSet: int, masterOffset: int, servoState: ServoState,
    utcTimescale: bool, realtime: bool)

  /** The time a leap second is looked up for: the target if the clock is going
      to be stepped. */
  function LookupTime(v: UtcValue, ingress: int): int {
    if v.servoState == UNLOCKED then
      ingress - v.masterOffset - (if v.tds.ptpTimescale then v.utcOffset * NS_PER_SEC else 0)
    else ingress
  }

  predicate LooksUp(v: UtcValue) {
    (Leap(v.tds) != 0 || v.leapSet != 0) && v.realtime
  }

  /** clock_utc_correct(): the new state, or nothing if updates are suspended. */
  function UtcCorrected(v: UtcValue, ingress: int): UtcValue {
    if !v.utcTimescale || (LooksUp(v) && Ambiguous(LookupTime(v, ingress))) then v
    else
      var ts := LookupTime(v, ingress);
      var fixed := if LooksUp(v) then Fixed(LeapStatus(ts, v.leapSet, Leap(v.tds)), Leap(v.tds), v.utcOffset)
                   else Status(v.leapSet, Leap(v.tds), v.utcOffset);
      v.(leapSet := fixed.status,
         utcOffsetSet := if v.tds.utcOffValid && v.tds.timeTraceable && v.realtime then fixed.utcOffset else v.utcOffsetSet,
         masterOffset := if v.tds.ptpTimescale then v.masterOffset + fixed.utcOffset * NS_PER_SEC else v.masterOffset)
  }

  predicate Suspended(v: UtcValue, ingress: int) {
    v.utcTimescale && LooksUp(v) && Ambiguous(LookupTime(v, ingress))
  }

  class UtcClock {
    const utcTimescale: bool
    const realtime: bool
    var tds: TimeProperties
    var utcOffset: int
    var utcOffsetSet: int
    var leapSet: int
    var masterOffset: int
    var servoState: ServoState
    /** The arguments of sysclk_set_leap() or servo_leap(). */
    var leaps: seq<int>

    constructor (utcTimescale: bool, realtime: bool, tds: TimeProperties)
      ensures Value() == UtcValue(tds, tds.currentUtcOffset, 0, 0, 0, UNLOCKED, utcTimescale, realtime) && leaps == []
    {
      this.utcTimescale, this.realtime, this.tds := utcTimescale, realtime, tds;
      utcOffset, utcOffsetSet, leapSet, masterOffset, servoState, leaps := tds.currentUtcOffset, 0, 0, 0, UNLOCKED, [];
    }

    function Value(): UtcValue
      reads this
    {
      UtcValue(tds, utcOffset, utcOffsetSet, leapSet, masterOffset, servoState, utcTimescale, realtime)
    }

    method UtcCorrect(ingress: int) returns (suspended: bool)
      modifies this`leapSet, this`utcOffsetSet, this`masterOffset, this`leaps
      ensures suspended == Suspended(old(Value()), ingress)
      ensures Value() == UtcCorrected(old(Value()), ingress)
      ensures leaps == old(leaps) + (if leapSet != old(leapSet) then [leapSet] else [])
    {
      if !utcTimescale {
        return false;
      }
      var offset, leap := utcOffset, if tds.leap61 then 1 else if tds.leap59 then -1 else 0;
      if (leap != 0 || leapSet != 0) && realtime {
        var ts := ingress;
        if servoState == UNLOCKED {
          ts := ingress - masterOffset;
          if tds.ptpTimescale {
            ts := ts - utcOffset * NS_PER_SEC;
          }
        }
        if Ambiguous(ts) {
          return true;
        }
        var clockLeap;
        clockLeap, leap, offset := LeapSecondStatus(ts, leapSet, leap, offset);
        if leapSet != clockLeap {
          leaps := leaps + [clockLeap];
          leapSet := clockLeap;
        }
      }
      if tds.utcOffValid && tds.timeTraceable && utcOffsetSet != offset && realtime {
        utcOffsetSet := offset;
      }
      if tds.ptpTimescale {
        masterOffset := masterOffset + offset * NS_PER_SEC;
      }
      suspended := false;
    }
  }

  /** A clock that was given what is announced at ts. */
  ghost predicate Informed(t: Timeline, v: UtcValue, queries: seq<int>, ts: int) {
    && v.utcTimescale && v.realtime && v.tds.ptpTimescale
    && v.tds.leap61 == (AnnouncedLeap(t, ts) == 1) && v.tds.leap59 == (AnnouncedLeap(t, ts) == -1)
    && v.utcOffset == AnnouncedOffset(t, ts)
    && v.leapSet == LeapSet(t, queries)
  }

  /** One update, after any others: either it is suspended, in the last second of
      a day, or the offset is moved from TAI to UTC by the true number of seconds,
      with the exceptions of CorrectedOffset. */
  lemma UpdateIsCorrected(t: Timeline, v: UtcValue, queries: seq<int>, ingress: int)
    requires Proper(t) && Informed(t, v, queries, LookupTime(v, ingress)) && InOrder(queries + [LookupTime(v, ingress)])
    ensures var ts := LookupTime(v, ingress);
            var w := UtcCorrected(v, ingress);
            var all := queries + [ts];
            if Suspended(v, ingress) then w == v && Ambiguous(ts)
            else
              && w.leapSet == LeapSet(t, all)
              && (w.masterOffset == v.masterOffset + TrueOffset(t, ts) * NS_PER_SEC
                  <==> && !(t.switch <= ts < t.midnight && !Seen(t, all))
                       && !(t.midnight <= ts && Seen(t, all) && !Cleared(t, all)))
  {
    var ts := LookupTime(v, ingress);
    var all := queries + [ts];
    assert all[..|queries|] == queries;
    CorrectedOffset(t, all);
    var fixed := Fixed(LeapSet(t, all), AnnouncedLeap(t, ts), AnnouncedOffset(t, ts));
    assert LeapSet(t, all) == LeapStatus(ts, v.leapSet, Leap(v.tds));
    if !LooksUp(v) {
      assert Fixed(0, 0, v.utcOffset) == Status(0, 0, v.utcOffset);
    }
  }

  // ---------------------------------------------------------------------
  // In terms of the true time
  // ---------------------------------------------------------------------

  const SECOND: int := 1_000_000_000
  const DAY: int := 86_400_000_000_000

  /** Suspended is the last second of a day, and early are its first six hours. */
  lemma TimesOfDay(ts: int)
    ensures Ambiguous(ts) <==> exists day: int :: DAY * day - SECOND <= ts < DAY * day
    ensures Early(ts) <==> exists day: int :: DAY * day <= ts <= DAY * day + 21600 * SECOND
  {
    var day, time := ts / DAY, ts % DAY;
    assert ts == DAY * day + time;
    forall d: int | DAY * d - SECOND <= ts < DAY * d ensures time >= DAY - SECOND {
      SameDay(d - 1, day, time);
    }
    forall d: int | DAY * d <= ts <= DAY * d + 21600 * SECOND ensures time <= 21600 * SECOND {
      SameDay(d, day, time);
    }
    if time >= DAY - SECOND {
      assert DAY * (day + 1) - SECOND <= ts < DAY * (day + 1);
    }
    if time <= 21600 * SECOND {
      assert DAY * day <= ts <= DAY * day + 21600 * SECOND;
    }
  }

  lemma SameDay(d: int, day: int, time: int)
    requires 0 <= time < DAY && DAY * d <= DAY * day + time < DAY * (d + 1)
    ensures d == day
  {
  }

  /** The state when UTC is utc and the offset of TAI from it ahead: the local clock, which
      keeps UTC, is wrong by error, and its offset from the master has been measured. */
  predicate MeasuredAt(v: UtcValue, ingress: int, utc: int, ahead: int, error: int) {
    && ingress == utc + error
    && v.masterOffset == error - if v.tds.ptpTimescale then ahead * SECOND else 0
  }

  /** A leap second is looked up for the true time, as far as the announced offset is right,
      if the clock is going to be stepped; and otherwise for the time of the clock. */
  lemma LookupIsTarget(v: UtcValue, ingress: int, utc: int, ahead: int, error: int)
    requires MeasuredAt(v, ingress, utc, ahead, error)
    ensures LookupTime(v, ingress)
         == if v.servoState != UNLOCKED then utc + error
            else if v.tds.ptpTimescale then utc + (ahead - v.utcOffset) * SECOND
            else utc
  {
    if v.tds.ptpTimescale {
      assert ahead * SECOND - v.utcOffset * NS_PER_SEC == (ahead - v.utcOffset) * SECOND;
    }
  }

  /** An update that is not suspended makes of the measured offset the error of the clock,
      and tells the kernel the true offset if it is known to be valid, both with the
      exceptions of CorrectedOffset. */
  lemma UpdateFindsError(t: Timeline, v: UtcValue, queries: seq<int>, ingress: int, utc: int, error: int)
    requires var ts := LookupTime(v, ingress);
             && Proper(t) && Informed(t, v, queries, ts) && InOrder(queries + [ts])
             && MeasuredAt(v, ingress, utc, TrueOffset(t, ts), error) && !Suspended(v, ingress)
    ensures var ts := LookupTime(v, ingress);
            var (w, all) := (UtcCorrected(v, ingress), queries + [ts]);
            var right := && !(t.switch <= ts < t.midnight && !Seen(t, all))
                         && !(t.midnight <= ts && Seen(t, all) && !Cleared(t, all));
            && (w.masterOffset == error <==> right)
            && if v.tds.utcOffValid && v.tds.timeTraceable then w.utcOffsetSet == TrueOffset(t, ts) <==> right
               else w.utcOffsetSet == v.utcOffsetSet
  {
    UpdateIsCorrected(t, v, queries, ingress);
    hide Seen, Cleared, LeapSet, LeapStatus, AnnouncedLeap, AnnouncedOffset, TrueOffset, InOrder;
  }

  /** A clock other than the system's is neither suspended nor told of leap seconds: the
      announced offset is added if the master keeps TAI.  A clock that does not keep UTC
      is left alone. */
  lemma OtherClocks(v: UtcValue, ingress: int)
    requires !v.utcTimescale || !v.realtime
    ensures !Suspended(v, ingress)
    ensures UtcCorrected(v, ingress)
         == if v.utcTimescale && v.tds.ptpTimescale then v.(masterOffset := v.masterOffset + v.utcOffset * SECOND) else v
  {
  }

  /** Without an announcement, and none taken over before, the announced offset counts. */
  lemma NothingAnnounced(v: UtcValue, ingress: int)
    requires v.utcTimescale && v.leapSet == 0 && !v.tds.leap61 && !v.tds.leap59
    ensures !Suspended(v, ingress)
    ensures var w := UtcCorrected(v, ingress);
            && w.leapSet == 0
            && w.masterOffset == v.masterOffset + (if v.tds.ptpTimescale then v.utcOffset * SECOND else 0)
            && w.utcOffsetSet == if v.realtime && v.tds.utcOffValid && v.tds.timeTraceable then v.utcOffset else v.utcOffsetSet
  {
  }
}
