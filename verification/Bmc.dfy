/** The data sets of section 8.2 of IEEE Std 1588-2008 that the best master
    clock algorithm compares. */
module DataSets {
  import opened Octets

  type ClockIdentity = s: seq<U8> | |s| == 8 witness [0, 0, 0, 0, 0, 0, 0, 0]

  datatype PortIdentity = PortIdentity(clockIdentity: ClockIdentity, portNumber: U16)
  {
    /** The ten octets memcmp() sees.  The identity is stored as received, the
        port number in host order, which is taken to be little endian. */
    function Image(): (s: seq<U8>)
      ensures |s| == 10
    {
      clockIdentity + [portNumber % 0x100, portNumber / 0x100]
    }
  }

  datatype ClockQuality = ClockQuality(clockClass: U8, clockAccuracy: U8, offsetScaledLogVariance: U16)

  datatype Dataset = Dataset(
    priority1: U8,
    identity: ClockIdentity,
    quality: ClockQuality,
    priority2: U8,
    localPriority: U8,
    stepsRemoved: U16,
    sender: PortIdentity,
    receiver: PortIdentity)

  datatype Option<+T> = None | Some(value: T)

  function PidCmp(a: PortIdentity, b: PortIdentity): (r: int)
    ensures -1 <= r <= 1
  {
    Memcmp(a.Image(), b.Image())
  }

  /** pid_eq() and memcmp() decide equality of port identities. */
  lemma PidCmpZero(a: PortIdentity, b: PortIdentity)
    ensures PidCmp(a, b) == 0 <==> a == b
    ensures PidCmp(b, a) == -PidCmp(a, b)
  {
    MemcmpAntisymmetric(a.Image(), b.Image());
    if a.Image() == b.Image() {
      assert a.clockIdentity == a.Image()[..8] == b.Image()[..8] == b.clockIdentity;
      assert a.Image()[8] == b.Image()[8] && a.Image()[9] == b.Image()[9];
    }
  }

  lemma PidCmpTransitive(a: PortIdentity, b: PortIdentity, c: PortIdentity)
    requires PidCmp(a, b) < 0 && PidCmp(b, c) < 0
    ensures PidCmp(a, c) < 0
  {
    MemcmpTransitive(a.Image(), b.Image(), c.Image());
  }
}

/** Data set comparison and state decision (bmc.c, telecom.c). */
module Bmc {
  import opened Octets
  import opened DataSets
  import opened Fsm

  const A_BETTER_TOPO := 2
  const A_BETTER := 1
  const B_BETTER := -1
  const B_BETTER_TOPO := -2

  /** Second part of the comparison: the topology. */
  function Dscmp2(a: Dataset, b: Dataset): int {
    var A, B := a.stepsRemoved, b.stepsRemoved;
    if A + 1 < B then A_BETTER
    else if B + 1 < A then B_BETTER
    else if A < B then
      var diff := PidCmp(b.receiver, b.sender);
      if diff < 0 then A_BETTER else if diff > 0 then A_BETTER_TOPO else 0
    else if A > B then
      var diff := PidCmp(a.receiver, a.sender);
      if diff < 0 then B_BETTER else if diff > 0 then B_BETTER_TOPO else 0
    else
      var diff := PidCmp(a.sender, b.sender);
      if diff < 0 then A_BETTER_TOPO
      else if diff > 0 then B_BETTER_TOPO
      else if a.receiver.portNumber < b.receiver.portNumber then A_BETTER_TOPO
      else if a.receiver.portNumber > b.receiver.portNumber then B_BETTER_TOPO
      else 0
  }

  /** The IEEE 1588 comparison of two data sets that are present. */
  function DscmpSets(a: Dataset, b: Dataset): int {
    var diff := Memcmp(a.identity, b.identity);
    if diff == 0 then Dscmp2(a, b)
    else if a.priority1 < b.priority1 then A_BETTER
    else if a.priority1 > b.priority1 then B_BETTER
    else if a.quality.clockClass < b.quality.clockClass then A_BETTER
    else if a.quality.clockClass > b.quality.clockClass then B_BETTER
    else if a.quality.clockAccuracy < b.quality.clockAccuracy then A_BETTER
    else if a.quality.clockAccuracy > b.quality.clockAccuracy then B_BETTER
    else if a.quality.offsetScaledLogVariance < b.quality.offsetScaledLogVariance then A_BETTER
    else if a.quality.offsetScaledLogVariance > b.quality.offsetScaledLogVariance then B_BETTER
    else if a.priority2 < b.priority2 then A_BETTER
    else if a.priority2 > b.priority2 then B_BETTER
    else if diff < 0 then A_BETTER else B_BETTER
  }

  /** The telecom profile comparison of two data sets that are present. */
  function TelecomSets(a: Dataset, b: Dataset): int {
    if a.quality.clockClass < b.quality.clockClass then A_BETTER
    else if a.quality.clockClass > b.quality.clockClass then B_BETTER
    else if a.quality.clockAccuracy < b.quality.clockAccuracy then A_BETTER
    else if a.quality.clockAccuracy > b.quality.clockAccuracy then B_BETTER
    else if a.quality.offsetScaledLogVariance < b.quality.offsetScaledLogVariance then A_BETTER
    else if a.quality.offsetScaledLogVariance > b.quality.offsetScaledLogVariance then B_BETTER
    else if a.priority2 < b.priority2 then A_BETTER
    else if a.priority2 > b.priority2 then B_BETTER
    else if a.localPriority < b.localPriority then A_BETTER
    else if a.localPriority > b.localPriority then B_BETTER
    else if a.quality.clockClass <= 127 then Dscmp2(a, b)
    else
      var diff := Memcmp(a.identity, b.identity);
      if diff == 0 then Dscmp2(a, b)
      else if diff < 0 then A_BETTER else B_BETTER
  }

  /** The dscmp pointer of a clock, and the two functions it can point to. */
  type Comparison = (Dataset, Dataset) -> int

  datatype Profile = IEEE1588 | G8275

  function Dscmp(profile: Profile): Comparison {
    match profile
    case IEEE1588 => DscmpSets
    case G8275 => TelecomSets
  }

  /** The comparison as called, with null pointers. */
  function Compare(cmp: Comparison, a: Option<Dataset>, b: Option<Dataset>): int {
    match (a, b)
    case (None, None) => 0
    case (Some(_), None) => A_BETTER
    case (None, Some(_)) => B_BETTER
    case (Some(x), Some(y)) => cmp(x, y)
  }

  /** The recommended state of one port. */
  function StateDecision(
    cmp: Comparison, clockDs: Dataset, clockBest: Option<Dataset>, portBest: Option<Dataset>,
    isBestPort: bool, ps: PortState): PortState
  {
    if portBest.None? && ps == LISTENING then ps
    else if clockDs.quality.clockClass <= 127 then
      if Compare(cmp, Some(clockDs), portBest) > 0 then GRAND_MASTER /* M1 */ else PASSIVE /* P1 */
    else if Compare(cmp, Some(clockDs), clockBest) > 0 then GRAND_MASTER /* M2 */
    else if isBestPort then SLAVE /* S1 */
    else if Compare(cmp, clockBest, portBest) == A_BETTER_TOPO then PASSIVE /* P2 */
    else MASTER /* M3 */
  }

  // ---------------------------------------------------------------------
  // Order theory
  // ---------------------------------------------------------------------

  lemma Dscmp2Antisymmetric(a: Dataset, b: Dataset)
    ensures Dscmp2(b, a) == -Dscmp2(a, b)
  {
    PidCmpZero(a.sender, b.sender);
  }

  /** Exchanging the arguments negates the result, null pointers and the TOPO
      codes included; equal data sets compare as the same pointer does. */
  lemma CompareAntisymmetric(profile: Profile, a: Option<Dataset>, b: Option<Dataset>)
    ensures Compare(Dscmp(profile), b, a) == -Compare(Dscmp(profile), a, b)
    ensures a == b ==> Compare(Dscmp(profile), a, b) == 0
  {
    if a.Some? && b.Some? {
      Dscmp2Antisymmetric(a.value, b.value);
      MemcmpAntisymmetric(a.value.identity, b.value.identity);
    }
  }

  /** The part of a data set that only its grandmaster determines. */
  function Attributes(d: Dataset): (k: seq<nat>)
    ensures |k| == 5
  {
    [d.priority1, d.quality.clockClass, d.quality.clockAccuracy,
     d.quality.offsetScaledLogVariance, d.priority2]
  }

  function TopologyKey(d: Dataset): (k: seq<nat>)
    ensures |k| == 12
  {
    [d.stepsRemoved] + d.sender.Image() + [d.receiver.portNumber]
  }

  /** A reference definition: comparing these keys octet by octet, smaller is better. */
  function Key(profile: Profile, d: Dataset): (k: seq<nat>)
    ensures |k| == 25
  {
    match profile
    case IEEE1588 => (Attributes(d) + d.identity) + TopologyKey(d)
    case G8275 =>
      ([d.quality.clockClass, d.quality.clockAccuracy, d.quality.offsetScaledLogVariance,
        d.priority2, d.localPriority]
       + (if d.quality.clockClass <= 127 then seq(8, i => 0) else d.identity))
      + TopologyKey(d)
  }

  /** Equal grandmaster identities carry equal grandmaster attributes. */
  predicate SameAttributes(a: Dataset, b: Dataset) {
    a.identity == b.identity ==> Attributes(a) == Attributes(b)
  }

  predicate Comparable(profile: Profile, a: Dataset, b: Dataset) {
    && a.sender != a.receiver && b.sender != b.receiver
    && (profile.IEEE1588? ==> SameAttributes(a, b))
  }

  lemma Memcmp5(a: seq<nat>, b: seq<nat>)
    requires |a| == |b| == 5
    ensures Memcmp(a, b) ==
            if a[0] < b[0] then -1 else if a[0] > b[0] then 1
            else if a[1] < b[1] then -1 else if a[1] > b[1] then 1
            else if a[2] < b[2] then -1 else if a[2] > b[2] then 1
            else if a[3] < b[3] then -1 else if a[3] > b[3] then 1
            else if a[4] < b[4] then -1 else if a[4] > b[4] then 1 else 0
  {
    var a1, b1 := a[1..], b[1..];
    var a2, b2 := a1[1..], b1[1..];
    var a3, b3 := a2[1..], b2[1..];
    assert Memcmp(a3[1..], b3[1..]) == if a[4] < b[4] then -1 else if a[4] > b[4] then 1 else 0;
    assert a3[0] == a[3] && b3[0] == b[3] && a2[0] == a[2] && b2[0] == b[2];
    assert Memcmp(a2, b2) == if a2[0] < b2[0] then -1 else if a2[0] > b2[0] then 1 else Memcmp(a3, b3);
    assert Memcmp(a1, b1) == if a1[0] < b1[0] then -1 else if a1[0] > b1[0] then 1 else Memcmp(a2, b2);
  }

  /** The second part orders by (stepsRemoved, sender, receiving port). */
  lemma Dscmp2Key(a: Dataset, b: Dataset)
    requires a.sender != a.receiver && b.sender != b.receiver
    ensures Sign(Dscmp2(a, b)) == Memcmp(TopologyKey(b), TopologyKey(a))
  {
    PidCmpZero(a.receiver, a.sender);
    PidCmpZero(b.receiver, b.sender);
    PidCmpZero(a.sender, b.sender);
    var sa, sb := a.sender.Image(), b.sender.Image();
    MemcmpConcat([b.stepsRemoved] + sb, [a.stepsRemoved] + sa,
                 [b.receiver.portNumber], [a.receiver.portNumber]);
    MemcmpConcat([b.stepsRemoved], [a.stepsRemoved], sb, sa);
  }

  /** The nested tests implement the octet-wise order of the keys. */
  lemma CompareIsKeyOrder(profile: Profile, a: Dataset, b: Dataset)
    requires Comparable(profile, a, b)
    ensures Sign(Dscmp(profile)(a, b)) == Memcmp(Key(profile, b), Key(profile, a))
  {
    Dscmp2Key(a, b);
    MemcmpAntisymmetric(b.identity, a.identity);
    match profile
    case IEEE1588 =>
      MemcmpConcat(Attributes(b) + b.identity, Attributes(a) + a.identity, TopologyKey(b), TopologyKey(a));
      MemcmpConcat(Attributes(b), Attributes(a), b.identity, a.identity);
      Memcmp5(Attributes(b), Attributes(a));
    case G8275 =>
      var qa := [a.quality.clockClass, a.quality.clockAccuracy, a.quality.offsetScaledLogVariance,
                 a.priority2, a.localPriority];
      var qb := [b.quality.clockClass, b.quality.clockAccuracy, b.quality.offsetScaledLogVariance,
                 b.priority2, b.localPriority];
      var ia: seq<nat> := if a.quality.clockClass <= 127 then seq(8, i => 0) else a.identity;
      var ib: seq<nat> := if b.quality.clockClass <= 127 then seq(8, i => 0) else b.identity;
      MemcmpConcat(qb + ib, qa + ia, TopologyKey(b), TopologyKey(a));
      MemcmpConcat(qb, qa, ib, ia);
      Memcmp5(qb, qa);
      MemcmpAntisymmetric(ib, ia);
  }

  /** "Not worse than" is a total preorder on comparable data sets. */
  lemma CompareTransitive(profile: Profile, a: Dataset, b: Dataset, c: Dataset)
    requires Comparable(profile, a, b) && Comparable(profile, b, c) && Comparable(profile, a, c)
    requires Dscmp(profile)(a, b) >= 0 && Dscmp(profile)(b, c) >= 0
    ensures Dscmp(profile)(a, c) >= 0
    ensures Dscmp(profile)(a, b) > 0 || Dscmp(profile)(b, c) > 0 ==> Dscmp(profile)(a, c) > 0
  {
    CompareIsKeyOrder(profile, a, b);
    CompareIsKeyOrder(profile, b, c);
    CompareIsKeyOrder(profile, a, c);
    var ka, kb, kc := Key(profile, a), Key(profile, b), Key(profile, c);
    MemcmpAntisymmetric(ka, kb);
    MemcmpAntisymmetric(kb, kc);
    MemcmpAntisymmetric(ka, kc);
    MemcmpTransitive(ka, kb, kc);
  }

  // ---------------------------------------------------------------------
  // What is recommended
  // ---------------------------------------------------------------------

  /** Two data sets tell of one grandmaster, over two ways of which the second is
      at most one step longer and loses the tie. */
  predicate LosesTie(best: Dataset, d: Dataset) {
    && best.identity == d.identity
    && (if best.stepsRemoved == d.stepsRemoved then
          Memcmp(best.sender.Image() + [best.receiver.portNumber], d.sender.Image() + [d.receiver.portNumber]) < 0
        else
          d.stepsRemoved == best.stepsRemoved + 1 && PidCmp(d.sender, d.receiver) < 0)
  }

  /** When a port does not transmit: a clock that must not follow is silent where
      it hears a better one, any other unless it is better than all it hears
      follows the best of them by one port and is silent on the ports that loop
      back to the same grandmaster; every other port transmits. */
  lemma SilentExactly(clockDs: Dataset, clockBest: Option<Dataset>, portBest: Option<Dataset>, isBestPort: bool, ps: PortState)
    requires portBest.None? ==> ps != LISTENING
    ensures var r := StateDecision(DscmpSets, clockDs, clockBest, portBest, isBestPort, ps);
            var follows := clockDs.quality.clockClass > 127 && Compare(DscmpSets, clockBest, Some(clockDs)) >= 0;
            && (r == SLAVE <==> follows && isBestPort)
            && (r == PASSIVE <==>
                  if clockDs.quality.clockClass <= 127 then Compare(DscmpSets, portBest, Some(clockDs)) >= 0
                  else
                    && follows && !isBestPort && clockBest.Some? && portBest.Some?
                    && LosesTie(clockBest.value, portBest.value))
            && (r == MASTER ==> follows) && (r == GRAND_MASTER ==> !follows)
            && (r == SLAVE || r == PASSIVE || r == MASTER || r == GRAND_MASTER)
  {
    CompareAntisymmetric(IEEE1588, Some(clockDs), clockBest);
    CompareAntisymmetric(IEEE1588, Some(clockDs), portBest);
    if clockBest.Some? && portBest.Some? {
      BetterByTopology(clockBest.value, portBest.value);
    }
  }

  lemma BetterByTopology(a: Dataset, b: Dataset)
    ensures DscmpSets(a, b) == A_BETTER_TOPO <==> LosesTie(a, b)
  {
    MemcmpAntisymmetric(a.identity, b.identity);
    PidCmpZero(b.receiver, b.sender);
    PidCmpZero(a.sender, b.sender);
    MemcmpConcat(a.sender.Image(), b.sender.Image(), [a.receiver.portNumber], [b.receiver.portNumber]);
  }

  // ---------------------------------------------------------------------
  // Where the IEEE comparison stops being an order
  // ---------------------------------------------------------------------

  /** a >= b >= c implies a >= c, strictly when one of the steps is strict. */
  predicate TransitiveAt(a: Dataset, b: Dataset, c: Dataset) {
    DscmpSets(a, b) >= 0 && DscmpSets(b, c) >= 0 ==>
      && DscmpSets(a, c) >= 0
      && (DscmpSets(a, b) > 0 || DscmpSets(b, c) > 0 ==> DscmpSets(a, c) > 0)
  }

  /** Three data sets, two of them naming one grandmaster with different
      priorities, each of which beats the next. */
  lemma DscmpCycle() returns (a: Dataset, b: Dataset, c: Dataset)
    ensures a.identity == c.identity && a.sender != a.receiver && b.sender != b.receiver && c.sender != c.receiver
    ensures DscmpSets(a, b) > 0 && DscmpSets(b, c) > 0 && DscmpSets(c, a) > 0
  {
    var x: ClockIdentity, y: ClockIdentity := [1, 0, 0, 0, 0, 0, 0, 0], [2, 0, 0, 0, 0, 0, 0, 0];
    var q := ClockQuality(248, 0xFE, 0xFFFF);
    var from, to := PortIdentity(x, 1), PortIdentity(y, 1);
    a := Dataset(1, x, q, 128, 128, 5, from, to);
    b := Dataset(2, y, q, 128, 128, 0, from, to);
    c := Dataset(3, x, q, 128, 128, 0, from, to);
    assert Memcmp(x, y) == -1 && Memcmp(y, x) == 1;
    MemcmpAntisymmetric(x, x);
    PidCmpZero(from, to);
  }

  /** Between different identities only attributes and identity count. */
  lemma DscmpDifferentIdentity(a: Dataset, b: Dataset)
    requires a.identity != b.identity
    ensures DscmpSets(a, b) == Memcmp(Attributes(b) + b.identity, Attributes(a) + a.identity) != 0
    ensures DscmpSets(b, a) == -DscmpSets(a, b)
  {
    MemcmpConcat(Attributes(b), Attributes(a), b.identity, a.identity);
    MemcmpAntisymmetric(b.identity, a.identity);
    Memcmp5(Attributes(b), Attributes(a));
  }

  /** A data set of another clock that falls between a and c. */
  lemma Between(a: Dataset, c: Dataset) returns (b: Dataset)
    requires a.identity == c.identity
    requires Memcmp(Attributes(a), Attributes(c)) < 0
    ensures b.identity != a.identity && (b.sender, b.receiver) in {(a.sender, a.receiver), (c.sender, c.receiver)}
    ensures DscmpSets(a, b) > 0 && DscmpSets(b, c) > 0
  {
    var id := a.identity;
    var other: ClockIdentity := (if id[0] > 0 then [0] else [1]) + id[1..];
    assert other[0] != id[0];
    b := (if id[0] > 0 then c else a).(identity := other);
    DscmpDifferentIdentity(a, b);
    DscmpDifferentIdentity(b, c);
    MemcmpAntisymmetric(Attributes(a), Attributes(c));
    MemcmpAntisymmetric(Attributes(b), Attributes(b));
    MemcmpConcat(Attributes(b), Attributes(a), b.identity, a.identity);
    MemcmpConcat(Attributes(c), Attributes(b), c.identity, b.identity);
  }

  /** The comparison orders three data sets, however they are arranged. */
  predicate Ordered(a: Dataset, b: Dataset, c: Dataset) {
    && TransitiveAt(a, b, c) && TransitiveAt(c, b, a)
    && TransitiveAt(b, a, c) && TransitiveAt(c, a, b)
    && TransitiveAt(a, c, b) && TransitiveAt(b, c, a)
  }

  /** The attributes prefer neither, or the one that the topology prefers. */
  predicate Agree(a: Dataset, b: Dataset) {
    Attributes(a) == Attributes(b) || Memcmp(Attributes(b), Attributes(a)) == Sign(Dscmp2(a, b))
  }

  /** Two data sets of one grandmaster leave the order intact, whatever third
      data set joins them, exactly when their attributes are equal or the
      attributes prefer the same one that the topology prefers. */
  lemma DscmpOrderExactly(a: Dataset, c: Dataset)
    requires a.identity == c.identity && a.sender != a.receiver && c.sender != c.receiver
    ensures (forall b: Dataset | b.sender != b.receiver :: Ordered(a, b, c)) <==> Agree(a, c)
  {
    MemcmpAntisymmetric(Attributes(a), Attributes(c));
    Dscmp2Antisymmetric(a, c);
    if Agree(a, c) {
      forall b: Dataset | b.sender != b.receiver ensures Ordered(a, b, c) {
        if b.identity == a.identity {
          SameIdentityOrdered(a, b, c);
        } else {
          AgreementIsOrdered(a, b, c);
        }
      }
    } else if Memcmp(Attributes(a), Attributes(c)) < 0 {
      NotOrdered(a, c);
    } else {
      NotOrdered(c, a);
    }
  }

  /** The attributes prefer a, the topology does not. */
  lemma NotOrdered(a: Dataset, c: Dataset)
    requires a.identity == c.identity && a.sender != a.receiver && c.sender != c.receiver
    requires Memcmp(Attributes(a), Attributes(c)) < 0 && Dscmp2(a, c) <= 0
    ensures exists b: Dataset :: b.sender != b.receiver && !TransitiveAt(a, b, c)
  {
    var b := Between(a, c);
    MemcmpAntisymmetric(a.identity, c.identity);
    assert b.sender != b.receiver && !TransitiveAt(a, b, c);
  }

  /** Orders that a key gives are transitive. */
  lemma KeysAreTransitive(a: Dataset, b: Dataset, c: Dataset, ka: seq<nat>, kb: seq<nat>, kc: seq<nat>)
    requires |ka| == |kb| == |kc|
    requires Sign(DscmpSets(a, b)) == Memcmp(kb, ka) && Sign(DscmpSets(b, c)) == Memcmp(kc, kb)
    requires Sign(DscmpSets(a, c)) == Memcmp(kc, ka)
    ensures TransitiveAt(a, b, c)
  {
    MemcmpAntisymmetric(ka, kb);
    MemcmpAntisymmetric(kb, kc);
    MemcmpAntisymmetric(ka, kc);
    if DscmpSets(a, b) >= 0 && DscmpSets(b, c) >= 0 {
      MemcmpTransitive(ka, kb, kc);
    }
  }

  lemma KeysOrder(a: Dataset, b: Dataset, c: Dataset, ka: seq<nat>, kb: seq<nat>, kc: seq<nat>)
    requires |ka| == |kb| == |kc|
    requires Sign(DscmpSets(a, b)) == Memcmp(kb, ka) && Sign(DscmpSets(b, c)) == Memcmp(kc, kb)
    requires Sign(DscmpSets(a, c)) == Memcmp(kc, ka)
    ensures Ordered(a, b, c)
  {
    CompareAntisymmetric(IEEE1588, Some(a), Some(b));
    CompareAntisymmetric(IEEE1588, Some(b), Some(c));
    CompareAntisymmetric(IEEE1588, Some(a), Some(c));
    MemcmpAntisymmetric(ka, kb);
    MemcmpAntisymmetric(kb, kc);
    MemcmpAntisymmetric(ka, kc);
    KeysAreTransitive(a, b, c, ka, kb, kc);
    KeysAreTransitive(c, b, a, kc, kb, ka);
    KeysAreTransitive(b, a, c, kb, ka, kc);
    KeysAreTransitive(c, a, b, kc, ka, kb);
    KeysAreTransitive(a, c, b, ka, kc, kb);
    KeysAreTransitive(b, c, a, kb, kc, ka);
  }

  /** Among data sets of one grandmaster the topology alone decides. */
  lemma SameIdentityOrdered(a: Dataset, b: Dataset, c: Dataset)
    requires a.identity == b.identity == c.identity
    requires a.sender != a.receiver && b.sender != b.receiver && c.sender != c.receiver
    ensures Ordered(a, b, c)
  {
    MemcmpAntisymmetric(a.identity, a.identity);
    Dscmp2Key(a, b);
    Dscmp2Key(b, c);
    Dscmp2Key(a, c);
    KeysOrder(a, b, c, TopologyKey(a), TopologyKey(b), TopologyKey(c));
  }

  /** The octets that decide between data sets that agree. */
  lemma AgreementIsKeyOrder(a: Dataset, c: Dataset)
    requires a.identity == c.identity && a.sender != a.receiver && c.sender != c.receiver && Agree(a, c)
    ensures Sign(DscmpSets(a, c)) == Memcmp(Key(IEEE1588, c), Key(IEEE1588, a))
  {
    MemcmpAntisymmetric(a.identity, c.identity);
    MemcmpAntisymmetric(Attributes(c), Attributes(a));
    MemcmpConcat(Attributes(c) + c.identity, Attributes(a) + a.identity, TopologyKey(c), TopologyKey(a));
    MemcmpConcat(Attributes(c), Attributes(a), c.identity, a.identity);
    Dscmp2Key(a, c);
  }

  lemma AgreementIsOrdered(a: Dataset, b: Dataset, c: Dataset)
    requires a.identity == c.identity != b.identity && Agree(a, c)
    requires a.sender != a.receiver && b.sender != b.receiver && c.sender != c.receiver
    ensures Ordered(a, b, c)
  {
    AgreementIsKeyOrder(a, c);
    CompareIsKeyOrder(IEEE1588, a, b);
    CompareIsKeyOrder(IEEE1588, b, c);
    KeysOrder(a, b, c, Key(IEEE1588, a), Key(IEEE1588, b), Key(IEEE1588, c));
  }
}
