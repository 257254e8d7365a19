/** The messages, data sets and TLVs as they are declared (msg.h, ddt.h, ds.h and
    tlv.h), member by member, and what that makes of the fields that are converted. */
module Declarations {
  import opened Octets
  import opened DataSets
  import opened Flips
  import opened Tlv
  import opened Suffix
  import opened Wire

  /** A packed struct: numbers, which change byte order; other octets; a ScaledNs;
      a PTPText; the length of an address and the address. */
  datatype Struct =
    | End
    | Number(size: nat, rest: Struct)
    | Octets(size: nat, rest: Struct)
    | ScaledNs(rest: Struct)
    | Text(rest: Struct)
    | Address(rest: Struct)

  const TRANSPORT_ADDR_LEN := 16

  /** Where the numbers and the ScaledNs of a struct are, and where it ends. */
  datatype Members = Members(numbers: seq<Field>, scaled: Option<nat>, end: nat)

  function Add(f: Field, m: Option<Members>): Option<Members> {
    if m.None? then None else Some(m.value.(numbers := [f] + m.value.numbers))
  }

  /** Lays a struct over the octets from o on, if there are enough of them and no
      address is too long. */
  function Laid(d: Struct, v: seq<U8>, o: nat, net: bool): Option<Members>
    decreases d
  {
    match d
    case End => if o <= |v| then Some(Members([], None, o)) else None
    case Number(n, r) => Add(Field(o, n), Laid(r, v, o + n, net))
    case Octets(n, r) => Laid(r, v, o + n, net)
    case ScaledNs(r) =>
      var m := Add(Field(o, 2), Add(Field(o + 10, 2), Laid(r, v, o + 12, net)));
      if m.None? then None else Some(m.value.(scaled := Some(o)))
    case Text(r) => if o < |v| then Laid(r, v, o + 1 + Octet(v, o), net) else None
    case Address(r) =>
      if o + 2 <= |v| && Word(v, o, net) <= TRANSPORT_ADDR_LEN then Add(Field(o, 2), Laid(r, v, o + 2 + Word(v, o, net), net))
      else None
  }

  // ---------------------------------------------------------------------
  // Declarations
  // ---------------------------------------------------------------------

  function PortIdentityOf(r: Struct): Struct {
    Octets(8, Number(2, r))
  }

  function ClockQualityOf(r: Struct): Struct {
    Octets(2, Number(2, r))
  }

  function TimestampOf(r: Struct): Struct {
    Number(2, Number(4, Number(4, r)))
  }

  function Header(r: Struct): Struct {
    Octets(2, Number(2, Octets(4, Number(8, Octets(4, PortIdentityOf(Number(2, Octets(2, r))))))))
  }

  function Parent(r: Struct): Struct {
    PortIdentityOf(Octets(2, Number(2, Number(4, Octets(1, ClockQualityOf(Octets(9, r)))))))
  }

  function Current(r: Struct): Struct {
    Number(2, Number(8, Number(8, r)))
  }

  function TimeProperties(r: Struct): Struct {
    Number(2, Octets(2, r))
  }

  /** A time stamp that is a number, or stays as it is. */
  function Stamp(converted: bool, r: Struct): Struct {
    if converted then TimestampOf(r) else Octets(10, r)
  }

  /** The types of messages whose time stamps are converted when sent: Pdelay_Resp,
      Follow_Up, Delay_Resp and Pdelay_Resp_Follow_Up. */
  const STAMPED := {0x3, 0x8, 0x9, 0xA}

  const DELAY_REQ := 0x1
  const MANAGEMENT := 0xD

  function BodyStruct(t: int, sent: bool): Option<Struct> {
    var stamped := sent && t in STAMPED;
    match t
    case 0x0 | 0x1 | 0x8 => Some(Stamp(stamped, End))
    case 0x2 => Some(Stamp(stamped, Octets(10, End)))
    case 0x3 | 0x9 | 0xA => Some(Stamp(stamped, PortIdentityOf(End)))
    case 0xB => Some(Stamp(stamped, Number(2, Octets(2, ClockQualityOf(Octets(9, Number(2, Octets(1, End))))))))
    case 0xC => Some(Octets(10, End))
    case 0xD => Some(PortIdentityOf(Octets(4, End)))
    case _ => None
  }

  function MessageStruct(t: int, sent: bool): Option<Struct> {
    var body := BodyStruct(t, sent);
    if body.None? then None else Some(Header(body.value))
  }

  /** Messages declared without a suffix: Sync, Pdelay_Req and Pdelay_Resp. */
  const CLOSED := {0x0, 0x2, 0x3}

  /** The product, the revision and the user, and the profile identity. */
  const TEXTS: Struct := Text(Text(Text(Octets(6, End))))

  /** With the identity of the manufacturer behind it. */
  const PROTOCOL_ADDRESS: Struct := Number(2, Address(Octets(4, TEXTS)))

  /** The data behind a managementId. */
  function DataStruct(id: U16): Option<Struct> {
    match id
    case 0x0001 => Some(Number(2, Text(Address(PROTOCOL_ADDRESS))))
    case 0x0002 => Some(Text(End))
    case 0x0003 | 0x0004 | 0x0005 | 0x0007 | 0x200D | 0x200E => Some(End)
    case 0x2000 => Some(Octets(2, Number(2, Octets(1, ClockQualityOf(Octets(11, End))))))
    case 0x2001 => Some(Current(End))
    case 0x2002 => Some(Parent(End))
    case 0x2003 => Some(TimeProperties(End))
    case 0x2004 => Some(PortIdentityOf(Octets(2, Number(8, Octets(6, End)))))
    case 0xC000 => Some(Number(8, Number(8, Number(4, Number(4, Number(2, ScaledNs(Number(4, Octets(8, End)))))))))
    case 0xC001 => Some(ClockQualityOf(Number(2, Octets(2, End))))
    case 0xC002 => Some(Number(4, Number(4, End)))
    case 0xC003 => Some(Number(2, Octets(64, End)))
    case 0xC004 => Some(PortIdentityOf(Octets(2, Text(End))))
    case _ => None
  }

  const ERROR_STATUS: Struct := Number(2, Number(2, Octets(4, End)))
  const FOLLOW_UP_INFO: Struct := Octets(6, Number(4, Number(2, ScaledNs(Number(4, End)))))

  const FOOT: Struct := Parent(Current(TimeProperties(TimestampOf(End))))

  function MonitorStruct(address: nat): Struct {
    Octets(2, Number(2, Number(2, Octets(address, FOOT))))
  }

  // ---------------------------------------------------------------------
  // Messages
  // ---------------------------------------------------------------------

  lemma PortIdentityLaid(r: Struct, v: seq<U8>, o: nat, net: bool)
    ensures Laid(PortIdentityOf(r), v, o, net) == Add(Field(o + 8, 2), Laid(r, v, o + 10, net))
  {
  }

  lemma ClockQualityLaid(r: Struct, v: seq<U8>, o: nat, net: bool)
    ensures Laid(ClockQualityOf(r), v, o, net) == Add(Field(o + 2, 2), Laid(r, v, o + 4, net))
  {
  }

  lemma TimestampLaid(r: Struct, v: seq<U8>, o: nat, net: bool)
    ensures Laid(TimestampOf(r), v, o, net)
         == Add(Field(o, 2), Add(Field(o + 2, 4), Add(Field(o + 6, 4), Laid(r, v, o + 10, net))))
  {
    var d := Number(4, Number(4, r));
    assert Laid(TimestampOf(r), v, o, net) == Add(Field(o, 2), Laid(d, v, o + 2, net));
  }

  lemma HeaderLaid(r: Struct, v: seq<U8>, net: bool)
    ensures Laid(Header(r), v, 0, net)
         == Add(Field(2, 2), Add(Field(8, 8), Add(Field(28, 2), Add(Field(30, 2), Laid(r, v, 34, net)))))
  {
    var c := PortIdentityOf(Number(2, Octets(2, r)));
    var b := Number(8, Octets(4, c));
    var a := Number(2, Octets(4, b));
    assert Header(r) == Octets(2, a);
    assert Laid(a, v, 2, net) == Add(Field(2, 2), Laid(b, v, 8, net));
    assert Laid(b, v, 8, net) == Add(Field(8, 8), Laid(c, v, 20, net));
    PortIdentityLaid(Number(2, Octets(2, r)), v, 20, net);
  }

  lemma AnnounceLaid(v: seq<U8>, net: bool)
    requires |v| == 64
    ensures Laid(BodyStruct(ANNOUNCE, false).value, v, 34, net) == Some(Members(BodyFields(ANNOUNCE), None, 64))
  {
    var d := Number(2, Octets(1, End));
    var c := ClockQualityOf(Octets(9, d));
    assert Laid(Number(2, Octets(2, c)), v, 44, net) == Add(Field(44, 2), Laid(c, v, 48, net));
    ClockQualityLaid(Octets(9, d), v, 48, net);
    assert Laid(d, v, 61, net) == Add(Field(61, 2), Laid(Octets(1, End), v, 63, net));
    var m := Laid(BodyStruct(ANNOUNCE, false).value, v, 34, net);
    assert m.Some? && m.value.numbers == BodyFields(ANNOUNCE);
  }

  lemma ManagementLaid(v: seq<U8>, net: bool)
    requires |v| == 48
    ensures Laid(BodyStruct(MANAGEMENT, false).value, v, 34, net) == Some(Members(BodyFields(MANAGEMENT), None, 48))
  {
    PortIdentityLaid(Octets(4, End), v, 34, net);
    assert Laid(Octets(4, End), v, 44, net) == Some(Members([], None, 48));
    assert [Field(42, 2)] + [] == BodyFields(MANAGEMENT);
  }

  /** A message with a time stamp, which may be a number, and perhaps the identity
      of a port. */
  lemma StampedLaid(v: seq<U8>, net: bool, sent: bool, requester: bool)
    requires |v| == if requester then 54 else 44
    ensures Laid(Stamp(sent, if requester then PortIdentityOf(End) else End), v, 34, net)
         == Some(Members((if sent then [Field(34, 2), Field(36, 4), Field(40, 4)] else [])
                         + (if requester then [Field(52, 2)] else []), None, |v|))
  {
    var r := if requester then PortIdentityOf(End) else End;
    var after := if requester then [Field(52, 2)] else [];
    if requester {
      PortIdentityLaid(End, v, 44, net);
      assert [Field(52, 2)] + [] == [Field(52, 2)];
    }
    assert Laid(r, v, 44, net) == Some(Members(after, None, |v|));
    if sent {
      TimestampLaid(r, v, 34, net);
      assert [Field(34, 2)] + ([Field(36, 4)] + ([Field(40, 4)] + after)) == [Field(34, 2), Field(36, 4), Field(40, 4)] + after;
    } else {
      assert Laid(Octets(10, r), v, 34, net) == Laid(r, v, 44, net);
      assert [] + after == after;
    }
  }

  lemma BodyLaid(t: int, v: seq<U8>, net: bool, sent: bool)
    requires PduLength(t) == Some(|v|)
    ensures Laid(BodyStruct(t, sent).value, v, 34, net)
         == Some(Members((if sent then TimestampFields(t) else []) + BodyFields(t), None, |v|))
  {
    if t in STAMPED || t == SYNC || t == DELAY_REQ {
      StampedLaid(v, net, sent && t in STAMPED, BodyFields(t) != []);
    } else if t == ANNOUNCE {
      AnnounceLaid(v, net);
      assert [] + BodyFields(t) == BodyFields(t);
    } else if t == MANAGEMENT {
      ManagementLaid(v, net);
      assert [] + BodyFields(t) == BodyFields(t);
    } else {
      assert Laid(Octets(10, End), v, 44, net) == if 54 <= |v| then Some(Members([], None, 54)) else None;
      assert [] + BodyFields(t) == [] && (if sent then TimestampFields(t) else []) == [];
    }
  }

  lemma HeaderBefore(fs: seq<Field>, n: nat)
    ensures Add(Field(2, 2), Add(Field(8, 8), Add(Field(28, 2), Add(Field(30, 2), Some(Members(fs, None, n))))))
         == Some(Members(HEADER + fs, None, n))
  {
    assert [Field(2, 2)] + ([Field(8, 8)] + ([Field(28, 2)] + ([Field(30, 2)] + fs))) == HEADER + fs;
  }

  /** The length of each type of message, whether TLVs can follow, and the fields
      that are converted on sending and on receiving, are those of its declaration. */
  lemma MessagesAsDeclared(t: int, v: seq<U8>, net: bool)
    ensures PduLength(t).Some? <==> MessageStruct(t, net).Some?
    ensures HasSuffix(t) <==> PduLength(t).Some? && t !in CLOSED
    ensures HasTimestamp(t) <==> t in STAMPED || t == 0x0 || t == 0xB
    ensures PduLength(t) == Some(|v|) ==>
              && Laid(MessageStruct(t, true).value, v, 0, net) == Some(Members(HEADER + TimestampFields(t) + BodyFields(t), None, |v|))
              && Laid(MessageStruct(t, false).value, v, 0, net) == Some(Members(HEADER + BodyFields(t), None, |v|))
  {
    if PduLength(t) == Some(|v|) {
      BodyLaid(t, v, net, true);
      BodyLaid(t, v, net, false);
      hide Laid;
      HeaderLaid(BodyStruct(t, true).value, v, net);
      HeaderLaid(BodyStruct(t, false).value, v, net);
      HeaderBefore(TimestampFields(t) + BodyFields(t), |v|);
      HeaderBefore([] + BodyFields(t), |v|);
      assert HEADER + (TimestampFields(t) + BodyFields(t)) == HEADER + TimestampFields(t) + BodyFields(t);
      assert HEADER + ([] + BodyFields(t)) == HEADER + BodyFields(t);
    }
  }

  /** On the wire the declared numbers of a message stand with their most
      significant octets first, and a received message has them as the host does;
      all other octets are as they were. */
  lemma DeclaredNumbersTurn(t: int, head: seq<U8>, sent: bool)
    requires PduLength(t) == Some(|head|)
    ensures MessageStruct(t, sent).Some? && Laid(MessageStruct(t, sent).value, head, 0, sent).Some?
    ensures var fs := Laid(MessageStruct(t, sent).value, head, 0, sent).value.numbers;
            var turned := if sent then NetHead(t, head) else HostHead(t, head);
            && Apart(fs, |head|)
            && (forall i | 0 <= i < |fs| ::
                  && Big(Part(turned, fs[i])) == Little(Part(head, fs[i]))
                  && Little(Part(turned, fs[i])) == Big(Part(head, fs[i])))
            && (forall k | 0 <= k < |head| && (forall i | 0 <= i < |fs| :: !In(fs[i], k)) :: turned[k] == head[k])
  {
    MessagesAsDeclared(t, head, sent);
    FieldsApart(t, |head|);
    hide Laid, Apart;
    FlippedNumbers(head, if sent then HEADER + TimestampFields(t) + BodyFields(t) else HEADER + BodyFields(t));
  }

  lemma BigJoins(a: seq<U8>, b: seq<U8>)
    requires |b| == 2
    ensures Big(a + b) == 0x1_0000 * Big(a) + Word(b, 0, true)
  {
    var s := a + b;
    assert s[..|s| - 1] == a + [b[0]] && s[..|s| - 1][..|a|] == a;
    assert Big(s) == 0x100 * Big(s[..|s| - 1]) + b[1];
    assert Big(s[..|s| - 1]) == 0x100 * Big(a) + b[0];
  }

  /** The time stamp that is stored beside a received message: 48 bits of seconds and 32 of
      nanoseconds, both with their most significant octets first. */
  lemma TimestampIsBigEndian(s: seq<U8>, o: nat)
    requires o + 10 <= |s|
    ensures PduAt(s, o, true) == Pdu(Big(s[o..o + 6]), Big(s[o + 6..o + 10]))
  {
    assert s[o..o + 6] == s[o..o + 2] + s[o + 2..o + 4] + s[o + 4..o + 6];
    assert s[o + 6..o + 10] == s[o + 6..o + 8] + s[o + 8..o + 10];
    WordOf(s, o);
    WordOf(s, o + 2);
    WordOf(s, o + 4);
    WordOf(s, o + 6);
    WordOf(s, o + 8);
    BigOfTwo(s[o..o + 2]);
    BigJoins(s[o..o + 2], s[o + 2..o + 4]);
    BigJoins(s[o..o + 2] + s[o + 2..o + 4], s[o + 4..o + 6]);
    BigOfTwo(s[o + 6..o + 8]);
    BigJoins(s[o + 6..o + 8], s[o + 8..o + 10]);
    hide Big;
  }

  lemma WordOf(s: seq<U8>, o: nat)
    requires o + 2 <= |s|
    ensures Word(s[o..o + 2], 0, true) == Word(s, o, true)
  {
  }

  lemma BigOfTwo(b: seq<U8>)
    requires |b| == 2
    ensures Big(b) == Word(b, 0, true)
  {
    assert [] + b == b;
    BigJoins([], b);
  }

  /** What becomes of received octets: too few for a header are bad, then another version
      is another protocol; then a message has a type that is declared, its declared length
      at least, and well formed TLVs behind it if it can have any. */
  lemma ReceivedExactly(find: Finder, s: seq<U8>)
    requires Within(find)
    ensures Receive(find, s).OtherProtocol? <==> |s| >= 34 && s[1] % 16 != 2
    ensures Receive(find, s).Message? <==>
              && |s| >= 34 && s[1] % 16 == 2
              && var t: int := s[0] % 16;
                 && MessageStruct(t, false).Some? && |s| >= PduLength(t).value
                 && (t in CLOSED || Walk(find, s[PduLength(t).value..]).Walked?)
  {
    hide Walk, HostHead, PduAt, Laid;
    if |s| >= 34 {
      MessagesAsDeclared(s[0] % 16, s, false);
    }
  }

  /** A path trace is cut off where it does not fit behind an Announce in the 1500 octets of
      a message. */
  lemma PathTraceFits(kind: U16, n: U16)
    ensures var fits := (1500 - PduLength(0xB).value - 4) / 8;
            CutLength(kind, n) == if kind == 0x0008 && n / 8 > fits then 8 * fits else n
  {
  }

  // ---------------------------------------------------------------------
  // TLVs
  // ---------------------------------------------------------------------

  /** Members that end with the value. */
  function Whole(m: Option<Members>, n: nat): Option<Layout> {
    if m.Some? && m.value.end == n then Some(Layout(m.value.numbers, m.value.scaled)) else None
  }

  function DeclaredManagement(v: seq<U8>, net: bool): Option<Layout> {
    if |v| < 2 then None
    else if |v| == 2 then Some(Layout([Field(0, 2)], None))
    else
      match DataStruct(Word(v, 0, net))
      case None => Some(Layout([Field(0, 2)], None))
      case Some(d) =>
        match Laid(Number(2, d), v, 0, net)
        case None => None
        case Some(m) => if m.end + m.end % 2 == |v| then Some(Layout(m.numbers, m.scaled)) else None
  }

  /** Addresses of UDP over IPv4 and over IPv6, and of IEEE 802.3. */
  predicate IsAddress(networkProtocol: U16, length: U16) {
    (networkProtocol == 1 && length == 4) || (networkProtocol == 2 && length == 16) || (networkProtocol == 3 && length == 6)
  }

  function DeclaredMonitor(v: seq<U8>, net: bool): Option<Layout> {
    if |v| < 70 || !IsAddress(Word(v, 2, net), Word(v, 4, net)) then None
    else Whole(Laid(MonitorStruct(Word(v, 4, net)), v, 0, net), |v|)
  }

  /** By the types of TLVs: management, management error status, organization extension
      and monitoring response; others are taken as they are. */
  function Declared(t: U16, v: seq<U8>, net: bool): Option<Layout> {
    if t == 0x0001 then DeclaredManagement(v, net)
    else if t == 0x0002 then
      if |v| < 8 then None else Whole(Laid(ERROR_STATUS, v[..8], 0, net), 8)
    else if t == 0x0003 then
      if |v| < 6 then None
      else if v[..6] == [0x00, 0x80, 0xC2, 0, 0, 1] then Whole(Laid(FOLLOW_UP_INFO, v, 0, net), |v|)
      else Some(Layout([], None))
    else if t == 0x21FF then DeclaredMonitor(v, net)
    else Some(Layout([], None))
  }

  lemma ParentLaid(r: Struct, v: seq<U8>, o: nat, net: bool)
    ensures Laid(Parent(r), v, o, net)
         == Add(Field(o + 8, 2), Add(Field(o + 12, 2), Add(Field(o + 14, 4), Add(Field(o + 21, 2), Laid(r, v, o + 32, net)))))
  {
    var c := Octets(1, ClockQualityOf(Octets(9, r)));
    var b := Octets(2, Number(2, Number(4, c)));
    PortIdentityLaid(b, v, o, net);
    assert Laid(b, v, o + 10, net) == Add(Field(o + 12, 2), Laid(Number(4, c), v, o + 14, net));
    assert Laid(Number(4, c), v, o + 14, net) == Add(Field(o + 14, 4), Laid(ClockQualityOf(Octets(9, r)), v, o + 19, net));
    ClockQualityLaid(Octets(9, r), v, o + 19, net);
    assert Laid(Octets(9, r), v, o + 23, net) == Laid(r, v, o + 32, net);
  }

  lemma CurrentLaid(r: Struct, v: seq<U8>, o: nat, net: bool)
    ensures Laid(Current(r), v, o, net)
         == Add(Field(o, 2), Add(Field(o + 2, 8), Add(Field(o + 10, 8), Laid(r, v, o + 18, net))))
  {
    assert Laid(Number(8, Number(8, r)), v, o + 2, net) == Add(Field(o + 2, 8), Add(Field(o + 10, 8), Laid(r, v, o + 18, net)));
  }

  /** Data of a fixed size is laid out as its fields say. */
  ghost predicate AsFixed(id: U16, v: seq<U8>, net: bool, scaled: Option<nat>) {
    && DataStruct(id).Some? && FixedLayout(id).Some?
    && var (size, fields) := FixedLayout(id).value;
       var m := Laid(Number(2, DataStruct(id).value), v, 0, net);
       && (m.Some? <==> 2 + size <= |v|)
       && (m.Some? ==> m.value == Members([Field(0, 2)] + fields, scaled, 2 + size))
  }

  lemma DefaultDataSet(v: seq<U8>, net: bool)
    ensures AsFixed(0x2000, v, net, None)
  {
    var c := ClockQualityOf(Octets(11, End));
    assert Laid(Number(2, Octets(1, c)), v, 4, net) == Add(Field(4, 2), Laid(c, v, 7, net));
    ClockQualityLaid(Octets(11, End), v, 7, net);
    assert Laid(Octets(11, End), v, 11, net) == Laid(End, v, 22, net);
    var m := Laid(Number(2, DataStruct(0x2000).value), v, 0, net);
    assert m.Some? ==> m.value.numbers == [Field(0, 2)] + FixedLayout(0x2000).value.1;
  }

  lemma CurrentDataSet(v: seq<U8>, net: bool)
    ensures AsFixed(0x2001, v, net, None)
  {
    CurrentLaid(End, v, 2, net);
    var m := Laid(Number(2, DataStruct(0x2001).value), v, 0, net);
    assert m.Some? ==> m.value.numbers == [Field(0, 2)] + FixedLayout(0x2001).value.1;
  }

  lemma ParentDataSet(v: seq<U8>, net: bool)
    ensures AsFixed(0x2002, v, net, None)
  {
    ParentLaid(End, v, 2, net);
    var m := Laid(Number(2, DataStruct(0x2002).value), v, 0, net);
    assert m.Some? ==> m.value.numbers == [Field(0, 2)] + FixedLayout(0x2002).value.1;
  }

  lemma PortDataSet(v: seq<U8>, net: bool)
    ensures AsFixed(0x2004, v, net, None)
  {
    var d := Number(8, Octets(6, End));
    PortIdentityLaid(Octets(2, d), v, 2, net);
    assert Laid(d, v, 14, net) == Add(Field(14, 8), Laid(Octets(6, End), v, 22, net));
    var m := Laid(Number(2, DataStruct(0x2004).value), v, 0, net);
    assert m.Some? ==> m.value.numbers == [Field(0, 2)] + FixedLayout(0x2004).value.1;
  }

  /** A ScaledNs at 28 with gmPresent and gmIdentity behind it. */
  lemma TimeStatusEnd(v: seq<U8>, net: bool)
    ensures Laid(ScaledNs(Number(4, Octets(8, End))), v, 28, net)
         == if 52 <= |v| then Some(Members([Field(28, 2), Field(38, 2), Field(40, 4)], Some(28), 52)) else None
  {
    var c := Number(4, Octets(8, End));
    assert Laid(c, v, 40, net) == Add(Field(40, 4), Laid(Octets(8, End), v, 44, net));
    var m := Laid(ScaledNs(c), v, 28, net);
    assert m.Some? ==> m.value.numbers == [Field(28, 2), Field(38, 2), Field(40, 4)];
  }

  lemma TimeStatusMiddle(v: seq<U8>, net: bool)
    ensures Laid(Number(4, Number(4, Number(2, ScaledNs(Number(4, Octets(8, End)))))), v, 18, net)
         == if 52 <= |v| then
              Some(Members([Field(18, 4), Field(22, 4), Field(26, 2), Field(28, 2), Field(38, 2), Field(40, 4)], Some(28), 52))
            else None
  {
    var c := ScaledNs(Number(4, Octets(8, End)));
    TimeStatusEnd(v, net);
    assert Laid(Number(4, Number(2, c)), v, 22, net) == Add(Field(22, 4), Add(Field(26, 2), Laid(c, v, 28, net)));
    var m := Laid(Number(4, Number(4, Number(2, c))), v, 18, net);
    assert m == Add(Field(18, 4), Laid(Number(4, Number(2, c)), v, 22, net));
    hide Laid;
    assert m.Some? ==> m.value.numbers == [Field(18, 4), Field(22, 4), Field(26, 2), Field(28, 2), Field(38, 2), Field(40, 4)];
  }

  lemma TimeStatus(v: seq<U8>, net: bool)
    ensures AsFixed(0xC000, v, net, Some(28))
  {
    var b := Number(4, Number(4, Number(2, ScaledNs(Number(4, Octets(8, End))))));
    var a := Number(8, Number(8, b));
    TimeStatusMiddle(v, net);
    assert Laid(a, v, 2, net) == Add(Field(2, 8), Add(Field(10, 8), Laid(b, v, 18, net)));
    var m := Laid(Number(2, a), v, 0, net);
    assert m == Add(Field(0, 2), Laid(a, v, 2, net));
    hide Laid;
    assert m.Some? ==> m.value.numbers == [Field(0, 2)] + FixedLayout(0xC000).value.1;
  }

  lemma GrandmasterSettings(v: seq<U8>, net: bool)
    ensures AsFixed(0xC001, v, net, None)
  {
    var d := Number(2, Octets(2, End));
    ClockQualityLaid(d, v, 2, net);
    assert Laid(d, v, 6, net) == Add(Field(6, 2), Laid(Octets(2, End), v, 8, net));
    var m := Laid(Number(2, DataStruct(0xC001).value), v, 0, net);
    assert m.Some? ==> m.value.numbers == [Field(0, 2)] + FixedLayout(0xC001).value.1;
  }

  lemma SmallDataSets(id: U16, v: seq<U8>, net: bool)
    requires id == 0x2003 || id == 0xC002 || id == 0xC003
    ensures AsFixed(id, v, net, None)
  {
    var m := Laid(Number(2, DataStruct(id).value), v, 0, net);
    if id == 0xC002 {
      assert Laid(Number(4, End), v, 6, net) == Add(Field(6, 4), Laid(End, v, 10, net));
    } else {
      var d := Octets(if id == 0x2003 then 2 else 64, End);
      assert Laid(d, v, 4, net) == Laid(End, v, 4 + d.size, net);
    }
    assert m.Some? ==> m.value.numbers == [Field(0, 2)] + FixedLayout(id).value.1;
  }

  lemma FixedAsDeclared(id: U16, v: seq<U8>, net: bool)
    requires FixedLayout(id).Some?
    ensures AsFixed(id, v, net, if id == 0xC000 then Some(28) else None)
  {
    DefaultDataSet(v, net);
    CurrentDataSet(v, net);
    ParentDataSet(v, net);
    PortDataSet(v, net);
    TimeStatus(v, net);
    GrandmasterSettings(v, net);
    if id == 0x2003 || id == 0xC002 || id == 0xC003 {
      SmallDataSets(id, v, net);
    }
    hide AsFixed;
  }

  /** The end of a text, where there is one. */
  lemma TextLaid(r: Struct, v: seq<U8>, o: nat, net: bool)
    ensures Laid(Text(r), v, o, net).Some? ==> TextEnd(v, o).Some?
    ensures TextEnd(v, o).Some? ==> Laid(Text(r), v, o, net) == Laid(r, v, TextEnd(v, o).value, net)
  {
    if o < |v| {
      LaidEnds(r, v, o + 1 + Octet(v, o), net);
    }
  }

  /** What is laid over a value ends within it. */
  lemma {:induction false} LaidEnds(d: Struct, v: seq<U8>, o: nat, net: bool)
    ensures Laid(d, v, o, net).Some? ==> o <= Laid(d, v, o, net).value.end <= |v|
  {
    match d
    case End =>
    case Number(n, r) => LaidEnds(r, v, o + n, net);
    case Octets(n, r) => LaidEnds(r, v, o + n, net);
    case ScaledNs(r) => LaidEnds(r, v, o + 12, net);
    case Text(r) => if o < |v| { LaidEnds(r, v, o + 1 + Octet(v, o), net); }
    case Address(r) => if o + 2 <= |v| { LaidEnds(r, v, o + 2 + Word(v, o, net), net); }
  }

  /** Values of a managementId and a text, padded. */
  lemma UserDescription(v: seq<U8>, net: bool)
    requires |v| > 2 && Word(v, 0, net) == 0x0002
    ensures ManagementData(v, net) == DeclaredManagement(v, net)
  {
    var end := 3 + Octet(v, 2);
    assert Laid(Text(End), v, 2, net) == Laid(End, v, end, net);
    var m := Laid(Number(2, Text(End)), v, 0, net);
    assert m == Add(Field(0, 2), Laid(Text(End), v, 2, net));
    hide Laid;
    assert m.Some? ==> m.value.numbers == [Field(0, 2)];
  }

  lemma PortProperties(v: seq<U8>, net: bool)
    requires |v| > 2 && Word(v, 0, net) == 0xC004
    ensures ManagementData(v, net) == DeclaredManagement(v, net)
  {
    var d := Octets(2, Text(End));
    PortIdentityLaid(d, v, 2, net);
    assert Laid(d, v, 12, net) == Laid(Text(End), v, 14, net);
    assert Laid(Text(End), v, 14, net) == if 14 < |v| then Laid(End, v, 15 + Octet(v, 14), net) else None;
    assert |v| > 14 ==> Laid(End, v, 15 + Octet(v, 14), net).Some? == (15 + Octet(v, 14) <= |v|);
    var m := Laid(Number(2, PortIdentityOf(d)), v, 0, net);
    assert m == Add(Field(0, 2), Laid(PortIdentityOf(d), v, 2, net));
    hide Laid;
    assert m.Some? ==> m.value.numbers == [Field(0, 2), Field(10, 2)];
  }

  lemma FixedIsDeclared(v: seq<U8>, net: bool)
    requires |v| > 2 && FixedLayout(Word(v, 0, net)).Some?
    ensures ManagementData(v, net) == DeclaredManagement(v, net)
  {
    hide Laid;
    var id := Word(v, 0, net);
    FixedAsDeclared(id, v, net);
    assert (2 + FixedLayout(id).value.0) % 2 == 0;
  }

  // ---------------------------------------------------------------------
  // The clock description
  // ---------------------------------------------------------------------

  /** Where three texts at o end. */
  function TextsEnd(v: seq<U8>, o: nat): Option<nat> {
    var p := TextEnd(v, o);
    var r := if p.Some? then TextEnd(v, p.value) else None;
    if r.Some? then TextEnd(v, r.value) else None
  }

  /** The three texts and the profile identity at the end. */
  lemma TextsLaid(v: seq<U8>, o: nat, net: bool)
    ensures var end := TextsEnd(v, o);
            Laid(TEXTS, v, o, net)
            == if end.Some? && end.value + 6 <= |v| then Some(Members([], None, end.value + 6)) else None
  {
    TextLaid(Text(Text(Octets(6, End))), v, o, net);
    var p := TextEnd(v, o);
    if p.Some? {
      TextLaid(Text(Octets(6, End)), v, p.value, net);
      var r := TextEnd(v, p.value);
      if r.Some? {
        TextLaid(Octets(6, End), v, r.value, net);
      }
    }
  }

  /** Where an address at o ends. */
  function AddressEnd(v: seq<U8>, o: nat, net: bool): Option<nat> {
    if o + 2 <= |v| && Word(v, o, net) <= TRANSPORT_ADDR_LEN then Some(o + 2 + Word(v, o, net)) else None
  }

  /** From the protocol address on. */
  lemma ProtocolAddressLaid(v: seq<U8>, r: nat, net: bool)
    ensures Laid(PROTOCOL_ADDRESS, v, r, net).Some? <==>
              && AddressEnd(v, r + 2, net).Some?
              && var end := TextsEnd(v, AddressEnd(v, r + 2, net).value + 4);
                 end.Some? && end.value + 6 <= |v|
    ensures Laid(PROTOCOL_ADDRESS, v, r, net).Some? ==>
              Laid(PROTOCOL_ADDRESS, v, r, net).value
              == Members([Field(r, 2), Field(r + 2, 2)], None, TextsEnd(v, AddressEnd(v, r + 2, net).value + 4).value + 6)
  {
    var e := Octets(4, TEXTS);
    var m := Laid(PROTOCOL_ADDRESS, v, r, net);
    assert m == Add(Field(r, 2), Laid(Address(e), v, r + 2, net));
    if AddressEnd(v, r + 2, net).Some? {
      var o := AddressEnd(v, r + 2, net).value;
      assert Laid(Address(e), v, r + 2, net) == Add(Field(r + 2, 2), Laid(e, v, o, net));
      assert Laid(e, v, o, net) == Laid(TEXTS, v, o + 4, net);
      TextsLaid(v, o + 4, net);
      hide Laid, TextsEnd;
      assert m.Some? ==> m.value.numbers == [Field(r, 2), Field(r + 2, 2)];
    }
  }

  lemma AddressLaid(r: Struct, v: seq<U8>, o: nat, net: bool)
    ensures var end := AddressEnd(v, o, net);
            Laid(Address(r), v, o, net) == if end.Some? then Add(Field(o, 2), Laid(r, v, end.value, net)) else None
  {
  }

  lemma FrontLaid(r: Struct, v: seq<U8>, net: bool)
    ensures Laid(Number(2, Number(2, r)), v, 0, net) == Add(Field(0, 2), Add(Field(2, 2), Laid(r, v, 4, net)))
  {
  }

  /** The three numbers at the front. */
  lemma AddedThree(q: nat, p: Option<Members>)
    ensures var m := Add(Field(0, 2), Add(Field(2, 2), Add(Field(q, 2), p)));
            && (m.Some? <==> p.Some?)
            && (m.Some? ==> m.value == p.value.(numbers := [Field(0, 2), Field(2, 2), Field(q, 2)] + p.value.numbers))
  {
    if p.Some? {
      var fs := p.value.numbers;
      assert [Field(0, 2)] + ([Field(2, 2)] + ([Field(q, 2)] + fs)) == [Field(0, 2), Field(2, 2), Field(q, 2)] + fs;
    }
  }

  /** From the managementId on. */
  lemma DescriptionLaid(v: seq<U8>, net: bool)
    ensures var m := Laid(Number(2, DataStruct(0x0001).value), v, 0, net);
            if TextEnd(v, 4).Some? && AddressEnd(v, TextEnd(v, 4).value, net).Some? then
              var q, r := TextEnd(v, 4).value, AddressEnd(v, TextEnd(v, 4).value, net).value;
              var p := Laid(PROTOCOL_ADDRESS, v, r, net);
              && (m.Some? <==> p.Some?)
              && (m.Some? ==> m.value == p.value.(numbers := [Field(0, 2), Field(2, 2), Field(q, 2)] + p.value.numbers))
            else m.None?
  {
    hide Laid, TextEnd, AddressEnd, Add;
    FrontLaid(Text(Address(PROTOCOL_ADDRESS)), v, net);
    TextLaid(Address(PROTOCOL_ADDRESS), v, 4, net);
    NoneAdded();
    if TextEnd(v, 4).Some? {
      var q := TextEnd(v, 4).value;
      AddressLaid(PROTOCOL_ADDRESS, v, q, net);
      if AddressEnd(v, q, net).Some? {
        AddedThree(q, Laid(PROTOCOL_ADDRESS, v, AddressEnd(v, q, net).value, net));
      }
    }
  }

  lemma NoneAdded()
    ensures forall f :: Add(f, None) == None
  {
  }

  /** The end of the description whose addresses begin at q and at r + 2. */
  function DescriptionEnd(v: seq<U8>, r: nat, net: bool): Option<nat> {
    var o := AddressEnd(v, r + 2, net);
    var end := if o.Some? then TextsEnd(v, o.value + 4) else None;
    if end.Some? && end.value + 6 <= |v| then Some(end.value + 6) else None
  }

  lemma DescriptionIs(v: seq<U8>, net: bool)
    ensures if TextEnd(v, 4).Some? && AddressEnd(v, TextEnd(v, 4).value, net).Some? then
              var q, r := TextEnd(v, 4).value, AddressEnd(v, TextEnd(v, 4).value, net).value;
              var end := DescriptionEnd(v, r, net);
              if end.Some? && end.value + end.value % 2 == |v| then
                ClockDescription(v, net)
                == Some(Layout([Field(0, 2), Field(2, 2), Field(q, 2), Field(r, 2), Field(r + 2, 2)], None))
              else ClockDescription(v, net).None?
            else ClockDescription(v, net).None?
  {
    hide Word;
  }

  lemma DescriptionIsDeclared(v: seq<U8>, net: bool)
    requires |v| > 2 && Word(v, 0, net) == 0x0001
    ensures ManagementData(v, net) == DeclaredManagement(v, net)
  {
    DescriptionIs(v, net);
    DescriptionLaid(v, net);
    hide Laid, ClockDescription, TextEnd, AddressEnd, TextsEnd;
    if TextEnd(v, 4).Some? && AddressEnd(v, TextEnd(v, 4).value, net).Some? {
      var q, r := TextEnd(v, 4).value, AddressEnd(v, TextEnd(v, 4).value, net).value;
      ProtocolAddressLaid(v, r, net);
      assert [Field(0, 2), Field(2, 2), Field(q, 2)] + [Field(r, 2), Field(r + 2, 2)]
          == [Field(0, 2), Field(2, 2), Field(q, 2), Field(r, 2), Field(r + 2, 2)];
    }
  }

  // ---------------------------------------------------------------------
  // All TLVs
  // ---------------------------------------------------------------------

  lemma FollowUpInfoLaid(v: seq<U8>, net: bool)
    ensures Laid(FOLLOW_UP_INFO, v, 0, net)
         == if 28 <= |v| then
              Some(Members([Field(6, 4), Field(10, 2), Field(12, 2), Field(22, 2), Field(24, 4)], Some(12), 28))
            else None
  {
    var c := ScaledNs(Number(4, End));
    var b := Number(4, Number(2, c));
    assert Laid(b, v, 6, net) == Add(Field(6, 4), Add(Field(10, 2), Laid(c, v, 12, net)));
    assert Laid(c.rest, v, 24, net) == Add(Field(24, 4), Laid(End, v, 28, net));
    var m := Laid(FOLLOW_UP_INFO, v, 0, net);
    assert m == Laid(b, v, 6, net);
    assert m.Some? ==> m.value.numbers == [Field(6, 4), Field(10, 2), Field(12, 2), Field(22, 2), Field(24, 4)];
  }

  lemma ErrorStatusLaid(v: seq<U8>, net: bool)
    requires |v| >= 8
    ensures Laid(ERROR_STATUS, v[..8], 0, net) == Some(Members([Field(0, 2), Field(2, 2)], None, 8))
  {
    var m := Laid(ERROR_STATUS, v[..8], 0, net);
    assert Laid(Octets(4, End), v[..8], 4, net) == Laid(End, v[..8], 8, net);
    assert m.Some? && m.value.numbers == [Field(0, 2), Field(2, 2)];
  }

  /** The numbers of a parent, a current and a time properties data set and a time
      stamp at p. */
  function FootNumbers(p: nat): seq<Field> {
    [Field(p + 8, 2), Field(p + 12, 2), Field(p + 14, 4), Field(p + 21, 2),
     Field(p + 32, 2), Field(p + 34, 8), Field(p + 42, 8), Field(p + 50, 2),
     Field(p + 54, 2), Field(p + 56, 4), Field(p + 60, 4)]
  }

  lemma FootLaid(v: seq<U8>, p: nat, net: bool)
    ensures Laid(FOOT, v, p, net) == if p + 64 <= |v| then Some(Members(FootNumbers(p), None, p + 64)) else None
  {
    var c := TimestampOf(End);
    var b := TimeProperties(c);
    ParentLaid(Current(b), v, p, net);
    CurrentLaid(b, v, p + 32, net);
    assert Laid(b, v, p + 50, net) == Add(Field(p + 50, 2), Laid(c, v, p + 54, net));
    TimestampLaid(End, v, p + 54, net);
    assert Laid(End, v, p + 64, net) == if p + 64 <= |v| then Some(Members([], None, p + 64)) else None;
    hide Laid;
    var m := Laid(FOOT, v, p, net);
    assert m.Some? ==> m.value.numbers == FootNumbers(p);
  }

  lemma MonitorLaid(n: nat, v: seq<U8>, net: bool)
    ensures Laid(MonitorStruct(n), v, 0, net)
         == if 70 + n <= |v| then Some(Members([Field(2, 2), Field(4, 2)] + FootNumbers(6 + n), None, 70 + n)) else None
  {
    var c := Octets(n, FOOT);
    var b := Number(2, Number(2, c));
    var m := Laid(MonitorStruct(n), v, 0, net);
    assert Laid(c, v, 6, net) == Laid(FOOT, v, 6 + n, net);
    assert Laid(b, v, 2, net) == Add(Field(2, 2), Add(Field(4, 2), Laid(c, v, 6, net)));
    assert MonitorStruct(n) == Struct.Octets(2, b);
    assert m == Laid(b, v, 2, net);
    hide Laid, FootNumbers;
    FootLaid(v, 6 + n, net);
    assert m.Some? ==> m.value.numbers == [Field(2, 2), Field(4, 2)] + FootNumbers(6 + n);
  }

  lemma MonitorIs(v: seq<U8>, net: bool)
    ensures if |v| >= 70 && IsAddress(Word(v, 2, net), Word(v, 4, net)) && |v| == 70 + Word(v, 4, net) then
              MonitorResponse(v, net) == Some(Layout([Field(2, 2), Field(4, 2)] + FootNumbers(6 + Word(v, 4, net)), None))
            else MonitorResponse(v, net).None?
  {
    hide Word;
    if MonitorResponse(v, net).Some? {
      assert MonitorResponse(v, net).value.fields == [Field(2, 2), Field(4, 2)] + FootNumbers(6 + Word(v, 4, net));
    }
  }

  lemma MonitorIsDeclared(v: seq<U8>, net: bool)
    ensures MonitorResponse(v, net) == DeclaredMonitor(v, net)
  {
    hide Laid, Word, MonitorResponse, FootNumbers, IsAddress, MonitorStruct;
    MonitorIs(v, net);
    if |v| >= 70 {
      MonitorLaid(Word(v, 4, net), v, net);
    }
  }

  lemma ManagementIsDeclared(v: seq<U8>, net: bool)
    requires |v| > 2
    ensures ManagementData(v, net) == DeclaredManagement(v, net)
  {
    var id := Word(v, 0, net);
    if id == 0x0001 {
      DescriptionIsDeclared(v, net);
    } else if id == 0x0002 {
      UserDescription(v, net);
    } else if id == 0xC004 {
      PortProperties(v, net);
    } else if FixedLayout(id).Some? {
      FixedIsDeclared(v, net);
    } else if IsCommand(id) {
      assert Laid(Number(2, End), v, 0, net) == Some(Members([Field(0, 2)] + [], None, 2));
    }
  }

  /** What is converted of a TLV, and which values are malformed, is what its
      declaration says, in both directions. */
  lemma TlvsAsDeclared(t: U16, v: seq<U8>, net: bool)
    ensures LayoutOf(t, v, net) == Declared(t, v, net)
  {
    hide Laid, ManagementData, Word;
    if t == TLV_MANAGEMENT && |v| > 2 {
      ManagementIsDeclared(v, net);
    } else if t == TLV_MANAGEMENT_ERROR_STATUS && |v| >= 8 {
      ErrorStatusLaid(v, net);
    } else if t == TLV_ORGANIZATION_EXTENSION {
      FollowUpInfoLaid(v, net);
    } else if t == TLV_PTPMON_RESP {
      MonitorIsDeclared(v, net);
    }
  }
}
