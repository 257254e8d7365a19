/** Foreign master records (foreign.h and the fc_ functions of port.c). */
module ForeignMasters {
  import opened CArith
  import opened Octets
  import opened DataSets

  const FOREIGN_MASTER_THRESHOLD := 2
  const NSEC2SEC := 1_000_000_000

  /** The parts of a received Announce that the best master clock algorithm
      uses; host is the monotonic time of its arrival in nanoseconds. */
  datatype Announce = Announce(
    source: PortIdentity,
    grandmasterPriority1: U8,
    grandmasterIdentity: ClockIdentity,
    grandmasterClockQuality: ClockQuality,
    grandmasterPriority2: U8,
    stepsRemoved: U16,
    logMessageInterval: int,
    host: int)

  /** The value of a record: its stored messages, newest first, and the number
      of Announces its sender has sent since the record was created. */
  datatype Record = Record(sender: PortIdentity, messages: seq<Announce>, dataset: Dataset, received: nat)

  /** msg_current(): whether fewer than four message intervals have passed. */
  predicate Current(m: Announce, now: int) {
    var age := now - m.host;
    if m.logMessageInterval < -63 then age < 0
    else if m.logMessageInterval > 31 then true
    else if m.logMessageInterval < 0 then age < 4 * NSEC2SEC / Pow2(-m.logMessageInterval)
    else age < 4 * Pow2(m.logMessageInterval) * NSEC2SEC
  }

  /** announce_compare() is non-zero. */
  predicate Differs(a: Announce, b: Announce) {
    || a.grandmasterPriority1 != b.grandmasterPriority1
    || a.grandmasterClockQuality != b.grandmasterClockQuality
    || a.grandmasterPriority2 != b.grandmasterPriority2
    || a.grandmasterIdentity != b.grandmasterIdentity
    || a.stepsRemoved != b.stepsRemoved
  }

  /** What pruning leaves: the longest prefix of at most two messages that ends
      in a current one. */
  function Pruned(ms: seq<Announce>, now: int): (r: seq<Announce>)
    ensures r <= ms && |r| <= FOREIGN_MASTER_THRESHOLD
    ensures r != [] ==> Current(r[|r| - 1], now)
    ensures forall k | |r| <= k < |ms| && k < FOREIGN_MASTER_THRESHOLD :: !Current(ms[k], now)
    decreases |ms|
  {
    if |ms| > FOREIGN_MASTER_THRESHOLD then Pruned(ms[..FOREIGN_MASTER_THRESHOLD], now)
    else if ms == [] || Current(ms[|ms| - 1], now) then ms
    else
      var r := Pruned(ms[..|ms| - 1], now);
      assert forall k | |r| <= k < |ms| :: k == |ms| - 1 || ms[k] == ms[..|ms| - 1][k];
      r
  }

  const NO_IDENTITY: ClockIdentity := [0, 0, 0, 0, 0, 0, 0, 0]

  /** A zeroed data set, but for the sender. */
  function Blank(sender: PortIdentity): Dataset {
    Dataset(0, NO_IDENTITY, ClockQuality(0, 0, 0), 0, 0, 0, sender, PortIdentity(NO_IDENTITY, 0))
  }

  function Fresh(m: Announce): Record {
    Record(m.source, [], Blank(m.source), 1)
  }
}
