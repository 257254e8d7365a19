/** Messages on the wire (msg.c), and time stamps (tmv.h). */
module Wire {
  import opened Octets
  import opened DataSets
  import opened Flips
  import opened Tlv
  import opened Suffix
  import opened SuffixBuffer

  // ---------------------------------------------------------------------
  // Formats
  // ---------------------------------------------------------------------

  const SYNC := 0x0
  const PDELAY_REQ := 0x2
  const PDELAY_RESP := 0x3
  const FOLLOW_UP := 0x8
  const DELAY_RESP := 0x9
  const PDELAY_RESP_FOLLOW_UP := 0xA
  const ANNOUNCE := 0xB

  const HEADER_LENGTH := 34

  /** messageLength, correction, the port number of the source and sequenceId. */
  const HEADER: seq<Field> := [Field(2, 2), Field(8, 8), Field(28, 2), Field(30, 2)]

  function PduLength(t: int): Option<nat> {
    match t
    case 0x0 | 0x1 | 0x8 | 0xC => Some(44)
    case 0x2 | 0x3 | 0x9 | 0xA => Some(54)
    case 0xB => Some(64)
    case 0xD => Some(48)
    case _ => None
  }

  /** msg_suffix() is not null. */
  predicate HasSuffix(t: int) {
    PduLength(t).Some? && t != SYNC && t != PDELAY_REQ && t != PDELAY_RESP
  }

  /** The time stamp that msg_pre_send() converts; those of the other types are
      sent as they are. */
  function TimestampFields(t: int): seq<Field> {
    if t == PDELAY_RESP || t == FOLLOW_UP || t == DELAY_RESP || t == PDELAY_RESP_FOLLOW_UP then
      [Field(34, 2), Field(36, 4), Field(40, 4)]
    else []
  }

  /** The other fields of the body, which are converted in both directions. */
  function BodyFields(t: int): seq<Field> {
    match t
    case 0x3 | 0x9 | 0xA => [Field(52, 2)]
    case 0xB => [Field(44, 2), Field(50, 2), Field(61, 2)]
    case 0xD => [Field(42, 2)]
    case _ => []
  }

  lemma HeadInSequence(t: int, n: nat)
    requires PduLength(t) == Some(n)
    ensures InSequence(HEADER + BodyFields(t), n)
  {
  }

  lemma TimestampInSequence(t: int, n: nat)
    requires PduLength(t) == Some(n)
    ensures InSequence(TimestampFields(t), n)
  {
  }

  lemma AllInSequence(t: int, n: nat)
    requires PduLength(t) == Some(n)
    ensures InSequence(HEADER + TimestampFields(t) + BodyFields(t), n)
  {
  }

  lemma FieldsApart(t: int, n: nat)
    requires PduLength(t) == Some(n)
    ensures Apart(HEADER + BodyFields(t), n) && Apart(TimestampFields(t), n)
    ensures Apart(HEADER + TimestampFields(t) + BodyFields(t), n)
  {
    HeadInSequence(t, n);
    TimestampInSequence(t, n);
    AllInSequence(t, n);
    hide InSequence, Apart;
    SequenceApart(HEADER + BodyFields(t), n);
    SequenceApart(TimestampFields(t), n);
    SequenceApart(HEADER + TimestampFields(t) + BodyFields(t), n);
  }

  /** timestamp_post_recv() stores the time stamp in host order beside the message. */
  datatype Pdu = Pdu(sec: nat, nsec: nat)

  function Word32(s: seq<U8>, o: nat, net: bool): nat
    requires o + 4 <= |s|
  {
    var a: nat, b: nat := Word(s, o, net), Word(s, o + 2, net);
    if net then 0x1_0000 * a + b else a + 0x1_0000 * b
  }

  function PduAt(s: seq<U8>, o: nat, net: bool): Pdu
    requires o + 10 <= |s|
  {
    var msb: nat := Word(s, o, net);
    Pdu(Word32(s, o + 2, net) + 0x1_0000_0000 * msb, Word32(s, o + 6, net))
  }

  predicate HasTimestamp(t: int) {
    t == SYNC || t == ANNOUNCE || TimestampFields(t) != []
  }

  // ---------------------------------------------------------------------
  // Sending and receiving
  // ---------------------------------------------------------------------

  datatype Received =
    | BadMessage
    | OtherProtocol
    | Message(image: seq<U8>, tlvs: seq<TLV>, pdu: Option<Pdu>)

  function TypeOf(s: seq<U8>): int
    requires |s| > 0
  {
    s[0] % 16
  }

  /** The fixed part of a message, converted for the host. */
  function HostHead(t: int, head: seq<U8>): (r: seq<U8>)
    requires PduLength(t) == Some(|head|)
    ensures |r| == |head|
  {
    FieldsApart(t, |head|);
    Flipped(head, HEADER + BodyFields(t))
  }

  /** msg_post_recv() on what was received. */
  ghost function Receive(find: Finder, s: seq<U8>): Received
    requires Within(find)
  {
    if |s| < HEADER_LENGTH then BadMessage
    else if s[1] % 16 != 2 then OtherProtocol
    else
      var t := TypeOf(s);
      var n := PduLength(t);
      if n.None? || |s| < n.value then BadMessage
      else
        var head, suffix := HostHead(t, s[..n.value]), s[n.value..];
        var pdu := ReceivedPdu(t, s);
        if !HasSuffix(t) then Message(head + suffix, [], pdu)
        else
          var w := Walk(find, suffix);
          if w.BadMsg? then BadMessage else Message(head + w.image, w.tlvs, pdu)
  }

  /** The fixed part of a message, converted for the network. */
  function NetHead(t: int, head: seq<U8>): (r: seq<U8>)
    requires PduLength(t) == Some(|head|)
    ensures |r| == |head|
  {
    FieldsApart(t, |head|);
    Flipped(head, HEADER + TimestampFields(t) + BodyFields(t))
  }

  /** msg_pre_send() on a fixed part with TLVs behind it. */
  ghost function Send(layouts: Layouts, head: seq<U8>, ts: seq<TLV>): seq<U8>
    requires Lawful(layouts) && AllSendable(layouts, ts) && head != [] && PduLength(TypeOf(head)) == Some(|head|)
  {
    NetHead(TypeOf(head), head) + NetImage(layouts, ts)
  }

  // ---------------------------------------------------------------------
  // Receiving what was sent
  // ---------------------------------------------------------------------

  /** Reversing the fields a, b and c, and then a and c, reverses b. */
  lemma FlippedBut(s: seq<U8>, a: seq<Field>, b: seq<Field>, c: seq<Field>)
    requires Apart(a + b + c, |s|) && Apart(a + c, |s|) && Apart(b, |s|)
    ensures Flipped(Flipped(s, a + b + c), a + c) == Flipped(s, b)
  {
    forall k: nat | k < |s| ensures Flipped(Flipped(s, a + b + c), a + c)[k] == Flipped(s, b)[k] {
      MirrorBounds(a + c, |s|, k);
      MirrorBut(s, a, b, c, k);
    }
  }

  lemma MirrorBut(s: seq<U8>, a: seq<Field>, b: seq<Field>, c: seq<Field>, k: nat)
    requires Apart(a + b + c, |s|) && Apart(a + c, |s|) && Apart(b, |s|) && k < |s|
    ensures Mirror(a + b + c, Mirror(a + c, k)) == Mirror(b, k)
  {
    var all, ac, n := a + b + c, a + c, |s|;
    if i: nat :| i < |ac| && In(ac[i], k) {
      MirrorInside(ac, n, i, k);
      var j := if i < |a| then i else i + |b|;
      assert all[j] == ac[i];
      MirrorInside(all, n, j, Mirror(ac, k));
      forall m: nat | m < |b| ensures !In(b[m], k) {
        assert all[|a| + m] == b[m];
      }
      MirrorOutside(b, k);
    } else {
      assert forall i: nat | i < |ac| :: !In(ac[i], k);
      MirrorOutside(ac, k);
      MirrorMiddle(a, b, c, n, k);
    }
  }

  /** Outside of a and c only b counts. */
  lemma MirrorMiddle(a: seq<Field>, b: seq<Field>, c: seq<Field>, n: nat, k: nat)
    requires Apart(a + b + c, n) && Apart(b, n) && k < n && forall i: nat | i < |a + c| :: !In((a + c)[i], k)
    ensures Mirror(a + b + c, k) == Mirror(b, k)
  {
    var all, ac := a + b + c, a + c;
    if m: nat :| m < |b| && In(b[m], k) {
      assert all[|a| + m] == b[m];
      MirrorInside(all, n, |a| + m, k);
      MirrorInside(b, n, m, k);
    } else {
      assert forall m: nat | m < |b| :: !In(b[m], k);
      forall i: nat | i < |all| ensures !In(all[i], k) {
        assert all[i] == if i < |a| then ac[i] else if i < |a| + |b| then b[i - |a|] else ac[i - |b|];
      }
      MirrorOutside(all, k);
      MirrorOutside(b, k);
    }
  }

  /** The fixed part as it is received: a time stamp that was converted for the
      network stays in network order. */
  function Arrived(t: int, head: seq<U8>): seq<U8>
    requires PduLength(t) == Some(|head|)
  {
    FieldsApart(t, |head|);
    Flipped(head, TimestampFields(t))
  }

  /** The time stamp beside the received message: in a Sync and an Announce the
      octets are what they were. */
  function SentPdu(t: int, head: seq<U8>): Option<Pdu>
    requires PduLength(t) == Some(|head|)
  {
    if TimestampFields(t) != [] then Some(PduAt(head, 34, false))
    else if t == SYNC || t == ANNOUNCE then Some(PduAt(head, 34, true))
    else None
  }

  function ReceivedPdu(t: int, s: seq<U8>): Option<Pdu>
    requires |s| >= 44
  {
    if HasTimestamp(t) then Some(PduAt(s, 34, true)) else None
  }

  lemma HeadRoundTrip(t: int, head: seq<U8>)
    requires PduLength(t) == Some(|head|)
    ensures HostHead(t, NetHead(t, head)) == Arrived(t, head)
    ensures NetHead(t, head)[0] == head[0] && NetHead(t, head)[1] == head[1]
    ensures ReceivedPdu(t, NetHead(t, head)) == SentPdu(t, head)
  {
    FieldsApart(t, |head|);
    FlippedBut(head, HEADER, TimestampFields(t), BodyFields(t));
    var fs := HEADER + TimestampFields(t) + BodyFields(t);
    MirrorOutside(fs, 0);
    MirrorOutside(fs, 1);
    TimestampArrives(t, head, fs);
  }

  /** On the wire every number that is converted stands with its most significant
      octet first, and no other octet of the fixed part differs from the message:
      not those of the other time stamps, nor of the target of a signaling message. */
  lemma HeadIsBigEndian(t: int, head: seq<U8>)
    requires PduLength(t) == Some(|head|)
    ensures var fs := HEADER + TimestampFields(t) + BodyFields(t);
            && Apart(fs, |head|)
            && (forall i | 0 <= i < |fs| :: Big(Part(NetHead(t, head), fs[i])) == Little(Part(head, fs[i])))
            && (forall k | 0 <= k < |head| && (forall i | 0 <= i < |fs| :: !In(fs[i], k)) :: NetHead(t, head)[k] == head[k])
  {
    var fs := HEADER + TimestampFields(t) + BodyFields(t);
    FieldsApart(t, |head|);
    FlippedNumbers(head, fs);
  }

  lemma TimestampArrives(t: int, head: seq<U8>, fs: seq<Field>)
    requires PduLength(t) == Some(|head|) && fs == HEADER + TimestampFields(t) + BodyFields(t) && Apart(fs, |head|)
    ensures TimestampFields(t) != [] ==> PduAt(Flipped(head, fs), 34, true) == PduAt(head, 34, false)
    ensures t == SYNC || t == ANNOUNCE ==> PduAt(Flipped(head, fs), 34, true) == PduAt(head, 34, true)
  {
    var w, n := Flipped(head, fs), |head|;
    if TimestampFields(t) != [] {
      assert fs[4] == Field(34, 2) && fs[5] == Field(36, 4) && fs[6] == Field(40, 4);
      forall k: nat | 34 <= k < 44
        ensures w[k] == head[if k < 36 then 69 - k else if k < 40 then 75 - k else 83 - k]
      {
        MirrorInside(fs, n, if k < 36 then 4 else if k < 40 then 5 else 6, k);
      }
    } else if t == SYNC || t == ANNOUNCE {
      forall k: nat | 34 <= k < 44 ensures w[k] == head[k] {
        MirrorOutside(fs, k);
      }
    }
  }

  /** Whatever the type: receiving what was sent gives back every field, the same
      TLVs, and the time stamp beside the message. */
  lemma MessageRoundTrip(find: Finder, layouts: Layouts, t: int, head: seq<U8>, ts: seq<TLV>)
    requires Lawful(layouts) && Within(find) && Finds(find, layouts)
    requires PduLength(t) == Some(|head|) && TypeOf(head) == t && head[1] % 16 == 2
    requires AllSendable(layouts, ts) && (HasSuffix(t) || ts == [])
    requires forall i | 0 <= i < |ts| :: Survives(layouts, ts[i])
    ensures Receive(find, Send(layouts, head, ts)) == Message(Arrived(t, head) + HostImage(ts), ts, SentPdu(t, head))
  {
    HeadRoundTrip(t, head);
    SuffixArrives(find, layouts, t, ts);
    ReceiveIs(find, t, NetHead(t, head), NetImage(layouts, ts), Walked(HostImage(ts), ts));
  }

  /** What the suffix is received as, if the type has one. */
  ghost predicate SuffixIs(find: Finder, t: int, suffix: seq<U8>, w: Walked)
    requires Within(find)
  {
    w.Walked? && if HasSuffix(t) then Walk(find, suffix) == w else suffix == [] == w.image && w.tlvs == []
  }

  lemma SuffixArrives(find: Finder, layouts: Layouts, t: int, ts: seq<TLV>)
    requires Lawful(layouts) && Within(find) && Finds(find, layouts)
    requires AllSendable(layouts, ts) && (HasSuffix(t) || ts == [])
    requires forall i | 0 <= i < |ts| :: Survives(layouts, ts[i])
    ensures SuffixIs(find, t, NetImage(layouts, ts), Walked(HostImage(ts), ts))
  {
    if HasSuffix(t) {
      SuffixOnly(find, layouts, ts);
    }
  }

  /** What is received of a fixed part and a suffix that can be walked. */
  lemma ReceiveIs(find: Finder, t: int, net: seq<U8>, suffix: seq<U8>, w: Walked)
    requires Within(find) && PduLength(t) == Some(|net|) && net[1] % 16 == 2 && TypeOf(net) == t
    requires SuffixIs(find, t, suffix, w)
    ensures Receive(find, net + suffix) == Message(HostHead(t, net) + w.image, w.tlvs, ReceivedPdu(t, net))
  {
    var s := net + suffix;
    assert s[..|net|] == net && s[|net|..] == suffix;
    PduBefore(net, s);
  }

  lemma PduBefore(net: seq<U8>, s: seq<U8>)
    requires |net| >= 44 && |s| >= |net| && s[..|net|] == net
    ensures PduAt(s, 34, true) == PduAt(net, 34, true)
  {
    assert forall k | 0 <= k < |net| :: s[k] == s[..|net|][k];
  }

  /** The same for the TLVs as they are converted (LayoutOf). */
  lemma WireRoundTrip(t: int, head: seq<U8>, ts: seq<TLV>)
    requires PduLength(t) == Some(|head|) && TypeOf(head) == t && head[1] % 16 == 2
    requires AllSendable(LayoutOf, ts) && (HasSuffix(t) || ts == [])
    requires forall i | 0 <= i < |ts| :: Survives(LayoutOf, ts[i])
    ensures Lawful(LayoutOf) && Within(Finding(LayoutOf))
    ensures Receive(Finding(LayoutOf), Send(LayoutOf, head, ts)) == Message(Arrived(t, head) + HostImage(ts), ts, SentPdu(t, head))
  {
    LayoutsAreLawful();
    FindingIsRight(LayoutOf);
    MessageRoundTrip(Finding(LayoutOf), LayoutOf, t, head, ts);
  }

  // ---------------------------------------------------------------------
  // In place
  // ---------------------------------------------------------------------

  datatype Err = OK | EBADMSG | EPROTO

  class Buffer {
    const data: array<U8>
    /** Where the TLV descriptors point. */
    var tlvs: seq<nat>
    var pdu: Option<Pdu>

    constructor (capacity: nat)
      ensures data.Length == capacity && tlvs == [] && pdu == None && fresh(data)
    {
      data := new U8[capacity](_ => 0);
      tlvs, pdu := [], None;
    }

    /** Reverses fields of a fixed part, before b. */
    method ConvertHead(n: nat, fs: seq<Field>, ghost head: seq<U8>, ghost b: seq<U8>)
      requires data[..] == head + b && |head| == n && Apart(fs, n)
      modifies data
      ensures data[..] == Flipped(head, fs) + b
    {
      assert data[0..n] == head && data[n..] == b && data[..0] == [];
      FlipFields(data, 0, n, fs);
      assert data[0 + n..] == data[n..] && data[0..0 + n] == data[..n];
      assert data[..] == data[..n] + data[n..];
    }

    /** msg_post_recv() on the cnt octets s received, with a fresh list of TLVs. */
    method PostRecv(ghost find: Finder, layouts: Layouts, cnt: nat, ghost s: seq<U8>, ghost b: seq<U8>) returns (err: Err)
      requires Lawful(layouts) && Within(find) && Finds(find, layouts)
      requires data[..] == s + b && |s| == cnt && tlvs == []
      modifies this, data
      ensures var r := Receive(find, s);
              match err
              case EBADMSG => r.BadMessage?
              case EPROTO => r.OtherProtocol?
              case OK =>
                && r.Message? && data[..] == r.image + b
                && tlvs == Offsets(PduLength(TypeOf(s)).value, r.tlvs)
                && pdu == if r.pdu.Some? then r.pdu else old(pdu)
    {
      hide Walk, Flipped, Apart, Within, Finds, Offsets, PduAt;
      if cnt < HEADER_LENGTH {
        return EBADMSG;
      }
      assert data[0] == s[0] && data[1] == s[1];
      if data[1] % 16 != 2 {
        return EPROTO;
      }
      var t: int := data[0] % 16;
      var pdulen := PduLength(t);
      if pdulen.None? || cnt < pdulen.value {
        return EBADMSG;
      }
      var n := pdulen.value;
      assert data[..cnt] == s;
      if HasTimestamp(t) {
        pdu := Some(PduAt(data[..cnt], 34, true));
      }
      ghost var head, suffix := s[..n], s[n..];
      assert s == head + suffix;
      Associate(head, suffix, b);
      FieldsApart(t, n);
      ConvertHead(n, HEADER + BodyFields(t), head, suffix + b);
      ghost var host := HostHead(t, head);
      Associate(host, suffix, b);
      if !HasSuffix(t) {
        return OK;
      }
      var ok, offsets := SuffixBuffer.PostRecv(find, layouts, data, n, cnt - n, host, suffix, b);
      if !ok {
        return EBADMSG;
      }
      tlvs := offsets;
      err := OK;
    }

    /** msg_pre_send() on a fixed part with TLVs ts behind it. */
    method PreSend(layouts: Layouts, ghost head: seq<U8>, ghost ts: seq<TLV>, ghost b: seq<U8>) returns (ok: bool)
      requires Lawful(layouts) && AllSendable(layouts, ts)
      requires head != [] && data[..] == head + HostImage(ts) + b && tlvs == Offsets(|head|, ts)
      requires PduLength(TypeOf(head)).Some? ==> PduLength(TypeOf(head)) == Some(|head|)
      modifies data
      ensures ok <==> PduLength(TypeOf(head)).Some?
      ensures ok ==> data[..] == Send(layouts, head, ts) + b
    {
      assert data[0] == head[0];
      var t: int := data[0] % 16;
      var pdulen := PduLength(t);
      if pdulen.None? {
        return false;
      }
      var n := pdulen.value;
      Associate(head, HostImage(ts), b);
      FieldsApart(t, n);
      ConvertHead(n, HEADER + TimestampFields(t) + BodyFields(t), head, HostImage(ts) + b);
      Associate(NetHead(t, head), HostImage(ts), b);
      SuffixBuffer.PreSend(layouts, data, n, tlvs, NetHead(t, head), ts, b);
      ok := true;
    }
  }

  // ---------------------------------------------------------------------
  // Time stamps
  // ---------------------------------------------------------------------

  const TWO_TO_64: int := 0x1_0000_0000_0000_0000
  const NS_PER_SEC: int := 1000000000

  predicate Int64(x: int) {
    -TWO_TO_64 / 2 <= x < TWO_TO_64 / 2
  }

  /** tmv_to_Timestamp(), which divides as unsigned: seconds of 16 and of 32 bits. */
  function ToTimestamp(x: int): (r: (nat, nat, nat))
    requires Int64(x)
    ensures r.0 < 0x1_0000 && r.1 < 0x1_0000_0000 && r.2 < NS_PER_SEC
  {
    var u := if x < 0 then x + TWO_TO_64 else x;
    var sec := u / NS_PER_SEC;
    ((sec / 0x1_0000_0000) % 0x1_0000, sec % 0x1_0000_0000, u % NS_PER_SEC)
  }

  /** timestamp_to_tmv(): the product and the sum wrap around. */
  function TimestampToTmv(p: Pdu): int {
    var u := (p.sec * NS_PER_SEC + p.nsec) % TWO_TO_64;
    if u >= TWO_TO_64 / 2 then u - TWO_TO_64 else u
  }

  /** Every 64 bit time survives, a negative one too, as the seconds and nanoseconds of the
      same 64 bits without a sign. */
  lemma TmvRoundTrip(x: int)
    requires -0x8000_0000_0000_0000 <= x < 0x8000_0000_0000_0000
    ensures Int64(x)
    ensures var (msb, lsb, nsec) := ToTimestamp(x);
            && TimestampToTmv(Pdu(lsb + 0x1_0000_0000 * msb, nsec)) == x
            && (lsb + 0x1_0000_0000 * msb) * 1_000_000_000 + nsec == x + (if x < 0 then 0x1_0000_0000_0000_0000 else 0)
  {
    var u := if x < 0 then x + TWO_TO_64 else x;
    Seconds(u);
    SecondsInParts(u / NS_PER_SEC);
  }

  lemma Seconds(u: nat)
    requires u < TWO_TO_64
    ensures (u / NS_PER_SEC) * NS_PER_SEC + u % NS_PER_SEC == u && u / NS_PER_SEC < 0x1_0000_0000_0000
  {
  }

  lemma SecondsInParts(sec: nat)
    requires sec < 0x1_0000_0000_0000
    ensures sec % 0x1_0000_0000 + 0x1_0000_0000 * ((sec / 0x1_0000_0000) % 0x1_0000) == sec
  {
    assert sec / 0x1_0000_0000 < 0x1_0000;
  }
}
