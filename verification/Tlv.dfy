/** The values of TLVs in host and network byte order (tlv.c). */
module Tlv {
  import opened Octets
  import opened DataSets
  import opened Flips

  const TLV_MANAGEMENT: U16 := 0x0001
  const TLV_MANAGEMENT_ERROR_STATUS: U16 := 0x0002
  const TLV_ORGANIZATION_EXTENSION: U16 := 0x0003
  const TLV_PATH_TRACE: U16 := 0x0008
  const TLV_PTPMON_RESP: U16 := 0x21FF

  const PATH_TRACE_MAX := 179

  /** The fields that change byte order, and where a ScaledNs is. */
  datatype Layout = Layout(fields: seq<Field>, scaled: Option<nat>)

  /** The 16 bit number at o, in network or in host byte order. */
  function Word(v: seq<U8>, o: nat, net: bool): U16
    requires o + 2 <= |v|
  {
    var a: nat, b: nat := v[o], v[o + 1];
    if net then 0x100 * a + b else a + 0x100 * b
  }

  function Octet(v: seq<U8>, o: nat): nat
    requires o < |v|
  {
    v[o]
  }

  // ---------------------------------------------------------------------
  // Layouts
  // ---------------------------------------------------------------------

  /** The data sets of a fixed size: their size and fields, from the end of the
      managementId on. */
  function FixedLayout(id: U16): Option<(nat, seq<Field>)> {
    match id
    case 0x2000 => Some((20, [Field(4, 2), Field(9, 2)]))
    case 0x2001 => Some((18, [Field(2, 2), Field(4, 8), Field(12, 8)]))
    case 0x2002 => Some((32, [Field(10, 2), Field(14, 2), Field(16, 4), Field(23, 2)]))
    case 0x2003 => Some((4, [Field(2, 2)]))
    case 0x2004 => Some((26, [Field(10, 2), Field(14, 8)]))
    case 0xC000 => Some((50, [Field(2, 8), Field(10, 8), Field(18, 4), Field(22, 4), Field(26, 2),
                              Field(28, 2), Field(38, 2), Field(40, 4)]))
    case 0xC001 => Some((8, [Field(4, 2), Field(6, 2)]))
    case 0xC002 => Some((8, [Field(2, 4), Field(6, 4)]))
    case 0xC003 => Some((66, [Field(2, 2)]))
    case _ => None
  }

  /** Commands, which carry no data. */
  predicate IsCommand(id: U16) {
    id == 0x0003 || id == 0x0004 || id == 0x0005 || id == 0x0007 || id == 0x200D || id == 0x200E
  }

  function Padded(n: nat): nat {
    n + n % 2
  }

  /** mgt_post_recv() on a value with more than a managementId. */
  function ManagementData(v: seq<U8>, net: bool): Option<Layout>
    requires |v| > 2
  {
    var id := Word(v, 0, net);
    if id == 0x0001 then ClockDescription(v, net)
    else if id == 0x0002 then
      if 2 + Padded(1 + Octet(v, 2)) == |v| then Some(Layout([Field(0, 2)], None)) else None
    else if id == 0xC004 then
      if |v| >= 15 && 2 + Padded(13 + Octet(v, 14)) == |v| then Some(Layout([Field(0, 2), Field(10, 2)], None)) else None
    else if IsCommand(id) then None
    else
      match FixedLayout(id)
      case Some((size, fields)) =>
        if |v| == 2 + size then Some(Layout([Field(0, 2)] + fields, if id == 0xC000 then Some(28) else None)) else None
      case None => Some(Layout([Field(0, 2)], None))
  }

  /** The end of a PTPText at o. */
  function TextEnd(v: seq<U8>, o: nat): Option<nat> {
    if o < |v| && o + 1 + Octet(v, o) <= |v| then Some(o + 1 + Octet(v, o)) else None
  }

  /** TLV_CLOCK_DESCRIPTION: texts and addresses of variable lengths. */
  function ClockDescription(v: seq<U8>, net: bool): Option<Layout> {
    if |v| < 4 then None
    else
      var q := TextEnd(v, 4);
      if q.None? || q.value + 2 > |v| || Word(v, q.value, net) > 16 || q.value + 2 + Word(v, q.value, net) > |v| then None
      else
        var r := q.value + 2 + Word(v, q.value, net);
        if r + 4 > |v| || Word(v, r + 2, net) > 16 || r + 4 + Word(v, r + 2, net) + 4 > |v| then None
        else
          var product := TextEnd(v, r + 4 + Word(v, r + 2, net) + 4);
          if product.None? then None
          else
            var revision := TextEnd(v, product.value);
            if revision.None? then None
            else
              var user := TextEnd(v, revision.value);
              if user.None? || user.value + 6 > |v| || 2 + Padded(user.value + 6 - 2) != |v| then None
              else Some(Layout([Field(0, 2), Field(2, 2), Field(q.value, 2), Field(r, 2), Field(r + 2, 2)], None))
  }

  /** The IEEE 802.1 organization extension for the Follow_Up information. */
  predicate IsFollowUpInfo(v: seq<U8>) {
    |v| >= 6 && v[..6] == [0x00, 0x80, 0xC2, 0, 0, 1]
  }

  function AddressLength(networkProtocol: U16): Option<nat> {
    match networkProtocol
    case 1 => Some(4)
    case 2 => Some(16)
    case 3 => Some(6)
    case _ => None
  }

  /** nsm_resp_post_recv() */
  function MonitorResponse(v: seq<U8>, net: bool): Option<Layout> {
    if |v| < 70 then None
    else
      var alen := AddressLength(Word(v, 2, net));
      if alen.None? || Word(v, 4, net) != alen.value || |v| != 70 + alen.value then None
      else
        var p := 6 + alen.value;
        Some(Layout([Field(2, 2), Field(4, 2),
                     Field(p + 8, 2), Field(p + 12, 2), Field(p + 14, 4), Field(p + 21, 2),
                     Field(p + 32, 2), Field(p + 34, 8), Field(p + 42, 8), Field(p + 50, 2),
                     Field(p + 54, 2), Field(p + 56, 4), Field(p + 60, 4)], None))
  }

  /** What tlv_post_recv() converts of a value in network byte order, or
      tlv_pre_send() of one in host byte order; none if it is malformed. */
  function LayoutOf(t: U16, v: seq<U8>, net: bool): Option<Layout> {
    if t == TLV_MANAGEMENT then
      if |v| < 2 then None else if |v| == 2 then Some(Layout([Field(0, 2)], None)) else ManagementData(v, net)
    else if t == TLV_MANAGEMENT_ERROR_STATUS then
      if |v| < 8 then None else Some(Layout([Field(0, 2), Field(2, 2)], None))
    else if t == TLV_ORGANIZATION_EXTENSION then
      if |v| < 6 then None
      else if !IsFollowUpInfo(v) then Some(Layout([], None))
      else if |v| != 28 then None
      else Some(Layout([Field(6, 4), Field(10, 2), Field(12, 2), Field(22, 2), Field(24, 4)], Some(12)))
    else if t == TLV_PTPMON_RESP then MonitorResponse(v, net)
    else Some(Layout([], None))
  }

  /** Fields do not overlap, with each other or the nanoseconds of a ScaledNs. */
  ghost predicate Proper(l: Layout, n: nat) {
    && Apart(l.fields, n)
    && (l.scaled.Some? ==>
          && l.scaled.value + 12 <= n
          && Field(l.scaled.value, 2) in l.fields
          && forall i | 0 <= i < |l.fields| ::
               l.fields[i].off + l.fields[i].size <= l.scaled.value + 2 || l.scaled.value + 10 <= l.fields[i].off)
  }

  /** Each field ends before the next one begins. */
  ghost predicate InSequence(fs: seq<Field>, n: nat) {
    && (forall i | 0 <= i < |fs| - 1 :: fs[i].off + fs[i].size <= fs[i + 1].off)
    && (fs != [] ==> fs[|fs| - 1].off + fs[|fs| - 1].size <= n)
  }

  lemma {:induction false} SequenceBefore(fs: seq<Field>, n: nat, i: nat, j: nat)
    requires InSequence(fs, n) && i < j < |fs|
    ensures fs[i].off + fs[i].size <= fs[j].off
  {
    if i < j - 1 {
      SequenceBefore(fs, n, i, j - 1);
    }
    assert fs[j - 1].off + fs[j - 1].size <= fs[(j - 1) + 1].off;
  }

  lemma SequenceApart(fs: seq<Field>, n: nat)
    requires InSequence(fs, n)
    ensures Apart(fs, n)
  {
    forall i: nat, j: nat | i < j < |fs| ensures fs[i].off + fs[i].size <= fs[j].off {
      SequenceBefore(fs, n, i, j);
    }
    forall i: nat | i < |fs| ensures fs[i].off + fs[i].size <= n {
      if i < |fs| - 1 {
        SequenceBefore(fs, n, i, |fs| - 1);
      }
    }
  }

  lemma FixedIsInSequence(id: U16)
    requires FixedLayout(id).Some?
    ensures InSequence([Field(0, 2)] + FixedLayout(id).value.1, 2 + FixedLayout(id).value.0)
  {
  }

  lemma DescriptionIsInSequence(v: seq<U8>, net: bool)
    requires ClockDescription(v, net).Some?
    ensures InSequence(ClockDescription(v, net).value.fields, |v|) && ClockDescription(v, net).value.scaled.None?
  {
  }

  lemma MonitorIsInSequence(v: seq<U8>, net: bool)
    requires MonitorResponse(v, net).Some?
    ensures InSequence(MonitorResponse(v, net).value.fields, |v|) && MonitorResponse(v, net).value.scaled.None?
  {
  }

  lemma ManagementIsInSequence(v: seq<U8>, net: bool)
    requires |v| > 2 && ManagementData(v, net).Some?
    ensures InSequence(ManagementData(v, net).value.fields, |v|)
  {
    var id := Word(v, 0, net);
    if id == 0x0001 {
      DescriptionIsInSequence(v, net);
    } else if FixedLayout(id).Some? {
      FixedIsInSequence(id);
    }
  }

  lemma LayoutIsInSequence(t: U16, v: seq<U8>, net: bool)
    requires LayoutOf(t, v, net).Some?
    ensures InSequence(LayoutOf(t, v, net).value.fields, |v|)
  {
    if t == TLV_MANAGEMENT && |v| > 2 {
      ManagementIsInSequence(v, net);
    } else if t == TLV_PTPMON_RESP {
      MonitorIsInSequence(v, net);
    }
  }

  /** The two layouts with a ScaledNs: the time status and the Follow_Up information. */
  lemma ScaledLayouts(t: U16, v: seq<U8>, net: bool)
    requires LayoutOf(t, v, net).Some? && LayoutOf(t, v, net).value.scaled.Some?
    ensures var l := LayoutOf(t, v, net).value;
            || (l == Layout([Field(0, 2)] + FixedLayout(0xC000).value.1, Some(28)) && |v| == 52)
            || (l == Layout([Field(6, 4), Field(10, 2), Field(12, 2), Field(22, 2), Field(24, 4)], Some(12)) && |v| == 28)
  {
    if t == TLV_MANAGEMENT && |v| > 2 && Word(v, 0, net) == 0x0001 {
      DescriptionIsInSequence(v, net);
    } else if t == TLV_PTPMON_RESP {
      MonitorIsInSequence(v, net);
    }
  }

  lemma LayoutIsProper(t: U16, v: seq<U8>, net: bool)
    requires LayoutOf(t, v, net).Some?
    ensures Proper(LayoutOf(t, v, net).value, |v|)
  {
    var l := LayoutOf(t, v, net).value;
    LayoutIsInSequence(t, v, net);
    SequenceApart(l.fields, |v|);
    if l.scaled.Some? {
      ScaledLayouts(t, v, net);
      ScaledIsProper(l, |v|);
    }
  }

  lemma ScaledIsProper(l: Layout, n: nat)
    requires Apart(l.fields, n)
    requires || (l == Layout([Field(0, 2)] + FixedLayout(0xC000).value.1, Some(28)) && n == 52)
             || (l == Layout([Field(6, 4), Field(10, 2), Field(12, 2), Field(22, 2), Field(24, 4)], Some(12)) && n == 28)
    ensures Proper(l, n)
  {
    if l.scaled == Some(28) {
      assert l.fields[6] == Field(28, 2);
    } else {
      assert l.fields[2] == Field(12, 2);
    }
  }

  // ---------------------------------------------------------------------
  // Conversion
  // ---------------------------------------------------------------------

  /** scaled_ns_n2h() and scaled_ns_h2n() write to the nanoseconds what they make
      of the word before them, as it is stored. */
  function Overwritten(v: seq<U8>, scaled: Option<nat>): (r: seq<U8>)
    requires scaled.Some? ==> scaled.value + 12 <= |v|
    ensures |r| == |v|
  {
    match scaled
    case None => v
    case Some(o) => v[..o + 2] + [0, 0, 0, 0, 0, 0, v[o], v[o + 1]] + v[o + 10..]
  }

  /** The value in the other byte order. */
  function Converted(v: seq<U8>, l: Layout): (r: seq<U8>)
    requires Proper(l, |v|)
    ensures |r| == |v|
  {
    Flipped(Overwritten(v, l.scaled), l.fields)
  }

  /** Whether k is in no field and not in the nanoseconds of a ScaledNs. */
  ghost predicate Outside(l: Layout, k: int) {
    && (forall i | 0 <= i < |l.fields| :: !In(l.fields[i], k))
    && (l.scaled.Some? ==> k < l.scaled.value + 2 || l.scaled.value + 10 <= k)
  }

  lemma ConvertedOctet(v: seq<U8>, l: Layout, k: nat)
    requires Proper(l, |v|) && k < |v| && Outside(l, k)
    ensures Converted(v, l)[k] == v[k]
  {
    MirrorOutside(l.fields, k);
  }

  lemma ConvertedWord(v: seq<U8>, l: Layout, i: nat, net: bool)
    requires Proper(l, |v|) && i < |l.fields| && l.fields[i].size == 2
    ensures l.fields[i].off + 2 <= |v|
    ensures Word(Converted(v, l), l.fields[i].off, !net) == Word(v, l.fields[i].off, net)
  {
    var o := l.fields[i].off;
    MirrorInside(l.fields, |v|, i, o);
    MirrorInside(l.fields, |v|, i, o + 1);
  }

  /** The value after a ScaledNs was converted twice. */
  function Rebuilt(v: seq<U8>, scaled: Option<nat>): (r: seq<U8>)
    requires scaled.Some? ==> scaled.value + 12 <= |v|
    ensures |r| == |v|
  {
    match scaled
    case None => v
    case Some(o) => v[..o + 2] + [0, 0, 0, 0, 0, 0, v[o + 1], v[o]] + v[o + 10..]
  }

  lemma ScaledWordTurns(v: seq<U8>, l: Layout)
    requires Proper(l, |v|) && l.scaled.Some?
    ensures var w, o := Converted(v, l), l.scaled.value; w[o] == v[o + 1] && w[o + 1] == v[o]
  {
    var o := l.scaled.value;
    var i: nat :| i < |l.fields| && l.fields[i] == Field(o, 2);
    MirrorInside(l.fields, |v|, i, o);
    MirrorInside(l.fields, |v|, i, o + 1);
    hide Apart;
  }

  lemma PlainTwice(v: seq<U8>, l: Layout)
    requires Proper(l, |v|) && l.scaled.None?
    ensures Converted(Converted(v, l), l) == v
  {
    FlippedTwice(v, l.fields);
    hide Flipped, Apart;
  }

  /** Converting twice restores the value, except for the nanoseconds of a
      ScaledNs, which are rebuilt from the word before them. */
  lemma ConvertedTwice(v: seq<U8>, l: Layout)
    requires Proper(l, |v|)
    ensures Converted(Converted(v, l), l) == Rebuilt(v, l.scaled)
  {
    hide Converted, Proper;
    if l.scaled.Some? {
      ScaledWordTurns(v, l);
      RebuiltByFlips(v, Converted(v, l), l);
    } else {
      PlainTwice(v, l);
    }
  }

  lemma RebuiltByFlips(v: seq<U8>, w: seq<U8>, l: Layout)
    requires Proper(l, |v|) && w == Converted(v, l) && l.scaled.Some?
    requires w[l.scaled.value] == v[l.scaled.value + 1] && w[l.scaled.value + 1] == v[l.scaled.value]
    ensures Converted(w, l) == Rebuilt(v, l.scaled)
  {
    var o := l.scaled.value;
    forall k | 0 <= k < |v| ensures Converted(w, l)[k] == Rebuilt(v, l.scaled)[k] {
      MirrorBounds(l.fields, |v|, k);
      MirrorTwice(l.fields, |v|, k);
      NotIntoNanoseconds(l, |v|, k);
    }
  }

  /** Reversing fields moves nothing into or out of the nanoseconds. */
  lemma NotIntoNanoseconds(l: Layout, n: nat, k: int)
    requires Proper(l, n) && l.scaled.Some? && 0 <= k < n
    ensures var o := l.scaled.value;
            if o + 2 <= k < o + 10 then Mirror(l.fields, k) == k else !(o + 2 <= Mirror(l.fields, k) < o + 10)
  {
    if i: nat :| i < |l.fields| && In(l.fields[i], k) {
      MirrorInside(l.fields, n, i, k);
    } else {
      assert forall i | 0 <= i < |l.fields| :: !In(l.fields[i], k);
      MirrorOutside(l.fields, k);
    }
  }

  // ---------------------------------------------------------------------
  // The converted value is laid out alike
  // ---------------------------------------------------------------------

  lemma SameTextEnd(v: seq<U8>, w: seq<U8>, o: nat)
    requires |v| == |w| && (o < |v| ==> v[o] == w[o])
    ensures TextEnd(v, o) == TextEnd(w, o)
  {
  }

  lemma FixedStable(v: seq<U8>, net: bool, l: Layout)
    requires |v| > 2 && ManagementData(v, net) == Some(l) && Proper(l, |v|) && Word(v, 0, net) != 0x0001
    ensures ManagementData(Converted(v, l), !net) == Some(l)
  {
    var w := Converted(v, l);
    assert l.fields[0] == Field(0, 2);
    ConvertedWord(v, l, 0, net);
    if Word(v, 0, net) == 0x0002 {
      ConvertedOctet(v, l, 2);
    } else if Word(v, 0, net) == 0xC004 {
      ConvertedOctet(v, l, 14);
    }
  }

  lemma DescriptionStable(v: seq<U8>, net: bool, l: Layout)
    requires ClockDescription(v, net) == Some(l) && Proper(l, |v|)
    ensures ClockDescription(Converted(v, l), !net) == Some(l)
  {
    var q, r, o := DescriptionFields(v, net, l);
    hide Converted, Proper, Word, TextEnd, ClockDescription;
    var w := Converted(v, l);
    ConvertedOctet(v, l, 4);
    SameTextEnd(v, w, 4);
    ConvertedWord(v, l, 2, net);
    ConvertedWord(v, l, 4, net);
    TextsStable(v, l, o);
    SameDescription(v, w, net, q, r);
  }

  /** Where two values have the same numbers and the same ends of texts. */
  lemma SameDescription(v: seq<U8>, w: seq<U8>, net: bool, q: nat, r: nat)
    requires |v| == |w| && ClockDescription(v, net).Some?
    requires q + 2 <= |v| && r + 4 <= |v| && r == q + 2 + Word(v, q, net)
    requires TextEnd(v, 4) == TextEnd(w, 4) == Some(q)
    requires Word(w, q, !net) == Word(v, q, net) && Word(w, r + 2, !net) == Word(v, r + 2, net)
    requires var o := r + 4 + Word(v, r + 2, net) + 4;
             && TextEnd(w, o) == TextEnd(v, o)
             && (TextEnd(v, o).Some? ==>
                   var p := TextEnd(v, o).value;
                   && TextEnd(w, p) == TextEnd(v, p)
                   && (TextEnd(v, p).Some? ==> TextEnd(w, TextEnd(v, p).value) == TextEnd(v, TextEnd(v, p).value)))
    ensures ClockDescription(w, !net) == ClockDescription(v, net)
  {
    hide Word, TextEnd;
  }

  lemma DescriptionFields(v: seq<U8>, net: bool, l: Layout) returns (q: nat, r: nat, o: nat)
    requires ClockDescription(v, net) == Some(l)
    ensures TextEnd(v, 4) == Some(q) && q + 2 <= |v| && r == q + 2 + Word(v, q, net)
    ensures r + 4 <= |v| && o == r + 4 + Word(v, r + 2, net) + 4
    ensures |v| > 4 && Outside(l, 4)
    ensures |l.fields| == 5 && l.fields[2] == Field(q, 2) && l.fields[4] == Field(r + 2, 2) && l.scaled.None?
    ensures forall i | 0 <= i < 5 :: l.fields[i].off + l.fields[i].size <= o
  {
    q := TextEnd(v, 4).value;
    r := q + 2 + Word(v, q, net);
    o := r + 4 + Word(v, r + 2, net) + 4;
  }

  /** The three texts at o are beyond all fields. */
  lemma TextsStable(v: seq<U8>, l: Layout, o: nat)
    requires Proper(l, |v|) && l.scaled.None? && forall i | 0 <= i < |l.fields| :: l.fields[i].off + l.fields[i].size <= o
    ensures var w := Converted(v, l);
            && TextEnd(w, o) == TextEnd(v, o)
            && (TextEnd(v, o).Some? ==>
                  var p := TextEnd(v, o).value;
                  && TextEnd(w, p) == TextEnd(v, p)
                  && (TextEnd(v, p).Some? ==> TextEnd(w, TextEnd(v, p).value) == TextEnd(v, TextEnd(v, p).value)))
  {
    forall k: nat | o <= k < |v| ensures Converted(v, l)[k] == v[k] {
      ConvertedOctet(v, l, k);
    }
  }

  lemma MonitorStable(v: seq<U8>, net: bool, l: Layout)
    requires MonitorResponse(v, net) == Some(l) && Proper(l, |v|)
    ensures MonitorResponse(Converted(v, l), !net) == Some(l)
  {
    assert l.fields[0] == Field(2, 2) && l.fields[1] == Field(4, 2);
    ConvertedWord(v, l, 0, net);
    ConvertedWord(v, l, 1, net);
  }

  lemma OrganizationStable(v: seq<U8>, l: Layout)
    requires LayoutOf(TLV_ORGANIZATION_EXTENSION, v, true) == Some(l) && Proper(l, |v|)
    ensures LayoutOf(TLV_ORGANIZATION_EXTENSION, Converted(v, l), true) == Some(l)
  {
    var w := Converted(v, l);
    forall k: nat | k < 6 ensures w[k] == v[k] {
      ConvertedOctet(v, l, k);
    }
    assert w[..6] == v[..6];
  }

  /** What is converted is the same in both directions. */
  lemma LayoutStable(t: U16, v: seq<U8>, net: bool, l: Layout)
    requires LayoutOf(t, v, net) == Some(l) && Proper(l, |v|)
    ensures LayoutOf(t, Converted(v, l), !net) == Some(l)
  {
    if t == TLV_MANAGEMENT && |v| > 2 {
      if Word(v, 0, net) == 0x0001 {
        assert l.fields[0] == Field(0, 2);
        ConvertedWord(v, l, 0, net);
        DescriptionStable(v, net, l);
      } else {
        FixedStable(v, net, l);
      }
    } else if t == TLV_ORGANIZATION_EXTENSION {
      OrganizationStable(v, l);
    } else if t == TLV_PTPMON_RESP {
      MonitorStable(v, net, l);
    }
  }

  /** A value survives being sent and received, or received and sent, if and only
      if the nanoseconds of its ScaledNs, if it has one, are the word before them
      with its octets, as stored, exchanged and at the end. */
  lemma ValueRoundTrip(t: U16, v: seq<U8>, net: bool)
    requires LayoutOf(t, v, net).Some?
    ensures var l := LayoutOf(t, v, net).value;
            && Proper(l, |v|)
            && LayoutOf(t, Converted(v, l), !net) == Some(l)
            && (Converted(Converted(v, l), l) == v <==> Restorable(v, l))
  {
    var l := LayoutOf(t, v, net).value;
    LayoutIsProper(t, v, net);
    LayoutStable(t, v, net, l);
    ConvertedTwice(v, l);
    RebuiltIsSame(v, l);
  }

  lemma RebuiltIsSame(v: seq<U8>, l: Layout)
    requires l.scaled.Some? ==> l.scaled.value + 12 <= |v|
    ensures Rebuilt(v, l.scaled) == v <==> Restorable(v, l)
  {
    if l.scaled.Some? {
      var o := l.scaled.value;
      assert Rebuilt(v, l.scaled)[o + 2..o + 10] == [0, 0, 0, 0, 0, 0, v[o + 1], v[o]];
      assert v == v[..o + 2] + v[o + 2..o + 10] + v[o + 10..];
    }
  }

  predicate Restorable(v: seq<U8>, l: Layout)
    requires l.scaled.Some? ==> l.scaled.value + 12 <= |v|
  {
    l.scaled.Some? ==>
      var o := l.scaled.value;
      v[o + 2..o + 10] == [0, 0, 0, 0, 0, 0, v[o + 1], v[o]]
  }

  lemma NotRestored(v: seq<U8>)
    requires |v| == 28 && IsFollowUpInfo(v) && v[14] != 0
    ensures LayoutOf(TLV_ORGANIZATION_EXTENSION, v, false).Some?
    ensures var l := LayoutOf(TLV_ORGANIZATION_EXTENSION, v, false).value;
            Proper(l, |v|) && Converted(Converted(v, l), l) != v
  {
    ValueRoundTrip(TLV_ORGANIZATION_EXTENSION, v, false);
    hide Converted, Proper;
    assert v[14..22][0] == v[14];
  }

  /** A Follow_Up information TLV whose last phase change is one nanosecond is
      not received as it was sent. */
  lemma PhaseChangeIsLost()
    ensures var v := [0x00, 0x80, 0xC2, 0, 0, 1, 0, 0, 0, 0, 0, 0, 0, 0, 1, 0, 0, 0, 0, 0, 0, 0, 0, 0, 0, 0, 0, 0];
            && LayoutOf(TLV_ORGANIZATION_EXTENSION, v, false).Some?
            && var l := LayoutOf(TLV_ORGANIZATION_EXTENSION, v, false).value;
            && Proper(l, |v|) && Converted(Converted(v, l), l) != v
  {
    hide Converted, Proper, LayoutOf;
    var v := [0x00, 0x80, 0xC2, 0, 0, 1, 0, 0, 0, 0, 0, 0, 0, 0, 1, 0, 0, 0, 0, 0, 0, 0, 0, 0, 0, 0, 0, 0];
    assert v[..6] == [0x00, 0x80, 0xC2, 0, 0, 1];
    NotRestored(v);
  }
}
