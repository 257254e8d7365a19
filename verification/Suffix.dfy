/** The TLVs behind a message (msg.c): the walk over received ones, and the
    conversion of those to be sent. */
module Suffix {
  import opened Octets
  import opened DataSets
  import opened Flips
  import opened Tlv

  /** A TLV in host byte order: its type and length fields, and the value that it
      was received with, which length says less of only if it was cut off. */
  datatype TLV = TLV(kind: U16, length: U16, value: seq<U8>)

  function Host16(x: U16): (s: seq<U8>)
    ensures |s| == 2 && Word(s, 0, false) == x
  {
    [x % 0x100, x / 0x100]
  }

  function Net16(x: U16): (s: seq<U8>)
    ensures |s| == 2 && Word(s, 0, true) == x
  {
    [x / 0x100, x % 0x100]
  }

  /** The length that a received TLV is given: path traces are cut off. */
  function CutLength(kind: U16, n: U16): U16 {
    if kind == TLV_PATH_TRACE && n / 8 > PATH_TRACE_MAX then PATH_TRACE_MAX * 8 else n
  }

  function HostTlv(t: TLV): (s: seq<U8>)
    ensures |s| == 4 + |t.value|
  {
    Host16(t.kind) + Host16(t.length) + t.value
  }

  function HostImage(ts: seq<TLV>): seq<U8> {
    if ts == [] then [] else HostTlv(ts[0]) + HostImage(ts[1..])
  }

  // ---------------------------------------------------------------------
  // One TLV
  // ---------------------------------------------------------------------

  /** What to convert of a value, by type and byte order (LayoutOf). */
  type Layouts = (U16, seq<U8>, bool) -> Option<Layout>

  ghost predicate RoundTrips(layouts: Layouts, t: U16, v: seq<U8>, net: bool) {
    layouts(t, v, net).Some? ==>
      var l := layouts(t, v, net).value;
      && Tlv.Proper(l, |v|)
      && layouts(t, Converted(v, l), !net) == Some(l)
      && (Converted(Converted(v, l), l) == v <==> Restorable(v, l))
  }

  /** Layouts fit the values, and are the same in both directions. */
  ghost predicate Lawful(layouts: Layouts) {
    && (forall t, v, net :: layouts(t, v, net).Some? ==> Tlv.Proper(layouts(t, v, net).value, |v|))
    && (forall t, v, net {:trigger RoundTrips(layouts, t, v, net)} :: RoundTrips(layouts, t, v, net))
  }

  lemma LayoutsAreLawful()
    ensures Lawful(LayoutOf)
  {
    forall t, v, net ensures LayoutOf(t, v, net).Some? ==> Tlv.Proper(LayoutOf(t, v, net).value, |v|) {
      if LayoutOf(t, v, net).Some? {
        LayoutIsProper(t, v, net);
      }
    }
    forall t, v, net ensures RoundTrips(LayoutOf, t, v, net) {
      if LayoutOf(t, v, net).Some? {
        ValueRoundTrip(t, v, net);
      }
    }
  }

  /** What tlv_pre_send() is given: a complete value that is well formed. */
  predicate Sendable(layouts: Layouts, t: TLV) {
    t.length == |t.value| && layouts(t.kind, t.value, false).Some?
  }

  ghost function NetTlv(layouts: Layouts, t: TLV): (s: seq<U8>)
    requires Lawful(layouts) && Sendable(layouts, t)
    ensures |s| == 4 + |t.value|
  {
    Net16(t.kind) + Net16(t.length) + Converted(t.value, layouts(t.kind, t.value, false).value)
  }

  /** The first TLV of a suffix in network byte order, if it is there. */
  ghost function First(layouts: Layouts, s: seq<U8>): Option<TLV>
    requires Lawful(layouts)
  {
    if |s| < 4 || Word(s, 2, true) % 2 != 0 || Word(s, 2, true) > |s| - 4 then None
    else
      var kind, n := Word(s, 0, true), Word(s, 2, true);
      var l := layouts(kind, s[4..4 + n], true);
      if l.None? then None else Some(TLV(kind, CutLength(kind, n), Converted(s[4..4 + n], l.value)))
  }

  /** TLVs that survive: even lengths, no path trace that is cut off, and a
      ScaledNs only if it is restored. */
  predicate Survives(layouts: Layouts, t: TLV) {
    && t.length % 2 == 0 && CutLength(t.kind, t.length) == t.length
    && layouts(t.kind, t.value, false).Some?
    && var l := layouts(t.kind, t.value, false).value;
       (l.scaled.Some? ==> l.scaled.value + 12 <= |t.value|) && Restorable(t.value, l)
  }

  /** A TLV that was sent is received as it was if and only if it survives. */
  lemma FirstOfSent(layouts: Layouts, t: TLV, rest: seq<U8>)
    requires Lawful(layouts) && Sendable(layouts, t)
    ensures First(layouts, NetTlv(layouts, t) + rest) == Some(t) <==> Survives(layouts, t)
  {
    assert RoundTrips(layouts, t.kind, t.value, false);
    var l := layouts(t.kind, t.value, false).value;
    var s, w := NetTlv(layouts, t) + rest, Converted(t.value, l);
    assert s[..2] == Net16(t.kind) && s[2..4] == Net16(t.length);
    assert s[4..4 + t.length] == w;
    assert Word(s, 0, true) == t.kind && Word(s, 2, true) == t.length;
  }

  // ---------------------------------------------------------------------
  // The walk
  // ---------------------------------------------------------------------

  /** How the first TLV of a suffix is found. */
  type Finder = seq<U8> -> Option<TLV>

  ghost predicate CutRight(t: TLV) {
    |t.value| % 2 == 0 && |t.value| < 0x1_0000 && t.length == CutLength(t.kind, |t.value|)
  }

  ghost predicate Within(find: Finder) {
    forall s :: find(s).Some? ==> 4 + |find(s).value.value| <= |s| && CutRight(find(s).value)
  }

  /** find is First, where it matters. */
  ghost predicate Finds(find: Finder, layouts: Layouts)
    requires Lawful(layouts)
  {
    forall s {:trigger At(s)} :: At(s) ==> find(s) == First(layouts, s)
  }

  ghost predicate At(s: seq<U8>) {
    true
  }

  ghost function Finding(layouts: Layouts): Finder {
    s => if Lawful(layouts) then First(layouts, s) else None
  }

  lemma FindingIsRight(layouts: Layouts)
    requires Lawful(layouts)
    ensures Within(Finding(layouts)) && Finds(Finding(layouts), layouts)
  {
  }

  datatype Walked = BadMsg | Walked(image: seq<U8>, tlvs: seq<TLV>)

  /** suffix_post_recv(): the suffix in host byte order and its TLVs. */
  ghost function Walk(find: Finder, s: seq<U8>): Walked
    requires Within(find)
    decreases |s|
  {
    if |s| < 4 then Walked(s, [])
    else if find(s).None? then BadMsg
    else
      var t := find(s).value;
      var rest := Walk(find, s[4 + |t.value|..]);
      if rest.BadMsg? then BadMsg else Walked(HostTlv(t) + rest.image, [t] + rest.tlvs)
  }

  lemma WalkStep(find: Finder, s: seq<U8>, t: TLV, rest: seq<U8>)
    requires Within(find) && |s| >= 4 && find(s) == Some(t) && rest == s[4 + |t.value|..]
    ensures Walk(find, s) == var w := Walk(find, rest);
                             if w.BadMsg? then BadMsg else Walked(HostTlv(t) + w.image, [t] + w.tlvs)
  {
  }

  function Span(ts: seq<TLV>): nat {
    if ts == [] then 0 else 4 + |ts[0].value| + Span(ts[1..])
  }

  lemma Associate(a: seq<U8>, b: seq<U8>, c: seq<U8>)
    ensures a + (b + c) == a + b + c
  {
  }

  lemma ImageCons(t: TLV, ts: seq<TLV>)
    ensures HostImage([t] + ts) == HostTlv(t) + HostImage(ts) && Span([t] + ts) == 4 + |t.value| + Span(ts)
  {
    assert ([t] + ts)[1..] == ts;
  }

  lemma HostLength(t: TLV)
    ensures |HostTlv(t)| == 4 + |t.value|
  {
  }

  lemma WalkedOn(find: Finder, s: seq<U8>)
    requires Within(find) && Walk(find, s).Walked? && |s| >= 4
    ensures find(s).Some? && CutRight(find(s).value) && 4 + |find(s).value.value| <= |s|
    ensures Walk(find, s[4 + |find(s).value.value|..]).Walked?
  {
  }

  /** One TLV before octets that are accounted for. */
  lemma AccountsStep(t: TLV, s: seq<U8>, rest: seq<U8>, image: seq<U8>, ts: seq<TLV>)
    requires 4 + |t.value| <= |s| && rest == s[4 + |t.value|..] && |image| == |rest|
    requires Span(ts) <= |rest| < Span(ts) + 4 && image == HostImage(ts) + rest[Span(ts)..]
    ensures |HostTlv(t) + image| == |s| && Span([t] + ts) <= |s| < Span([t] + ts) + 4
    ensures HostTlv(t) + image == HostImage([t] + ts) + s[Span([t] + ts)..]
  {
    HostLength(t);
    ImageCons(t, ts);
    hide HostImage, HostTlv, Span;
    var n := Span(ts);
    Associate(HostTlv(t), HostImage(ts), rest[n..]);
    assert s[4 + |t.value| + n..] == rest[n..];
  }

  /** The TLVs and fewer than four octets behind them make up the suffix; the
      lengths are even, and shorter than the values only of long path traces. */
  lemma {:induction false} WalkAccounts(find: Finder, s: seq<U8>)
    requires Within(find) && Walk(find, s).Walked?
    ensures var w := Walk(find, s);
            && |w.image| == |s| && Span(w.tlvs) <= |s| < Span(w.tlvs) + 4
            && w.image == HostImage(w.tlvs) + s[Span(w.tlvs)..]
            && forall i | 0 <= i < |w.tlvs| :: CutRight(w.tlvs[i])
    decreases |s|
  {
    if |s| < 4 {
      assert s[0..] == s;
    } else {
      hide Walk, HostImage, HostTlv, Span, CutRight, Within;
      WalkedOn(find, s);
      var t := find(s).value;
      var rest := s[4 + |t.value|..];
      WalkAccounts(find, rest);
      WalkStep(find, s, t, rest);
      AccountsStep(t, s, rest, Walk(find, rest).image, Walk(find, rest).tlvs);
    }
  }

  // ---------------------------------------------------------------------
  // Receiving what was sent
  // ---------------------------------------------------------------------

  ghost predicate AllSendable(layouts: Layouts, ts: seq<TLV>) {
    forall i | 0 <= i < |ts| :: Sendable(layouts, ts[i])
  }

  ghost function NetImage(layouts: Layouts, ts: seq<TLV>): seq<U8>
    requires Lawful(layouts) && AllSendable(layouts, ts)
  {
    if ts == [] then [] else NetTlv(layouts, ts[0]) + NetImage(layouts, ts[1..])
  }

  lemma NetCons(layouts: Layouts, t: TLV, ts: seq<TLV>)
    requires Lawful(layouts) && Sendable(layouts, t) && AllSendable(layouts, ts)
    ensures AllSendable(layouts, [t] + ts)
    ensures NetImage(layouts, [t] + ts) == NetTlv(layouts, t) + NetImage(layouts, ts)
  {
    assert ([t] + ts)[1..] == ts;
  }

  lemma SentStep(find: Finder, layouts: Layouts, t: TLV, more: seq<U8>, w: Walked)
    requires Lawful(layouts) && Within(find) && Finds(find, layouts)
    requires Sendable(layouts, t) && Survives(layouts, t) && Walk(find, more) == w && w.Walked?
    ensures Walk(find, NetTlv(layouts, t) + more) == Walked(HostTlv(t) + w.image, [t] + w.tlvs)
  {
    var s := NetTlv(layouts, t) + more;
    FirstOfSent(layouts, t, more);
    assert At(s);
    assert s[4 + |t.value|..] == more;
    WalkStep(find, s, t, more);
  }

  /** Receiving what was sent gives the same TLVs, in the buffer and as a list. */
  lemma {:induction false} SuffixRoundTrip(find: Finder, layouts: Layouts, ts: seq<TLV>, rest: seq<U8>)
    requires Lawful(layouts) && Within(find) && Finds(find, layouts)
    requires AllSendable(layouts, ts) && |rest| < 4 && forall i | 0 <= i < |ts| :: Survives(layouts, ts[i])
    ensures Walk(find, NetImage(layouts, ts) + rest) == Walked(HostImage(ts) + rest, ts)
    decreases |ts|
  {
    if ts == [] {
      assert [] + rest == rest;
    } else {
      var t, others := ts[0], ts[1..];
      assert ts == [t] + others;
      SuffixRoundTrip(find, layouts, others, rest);
      SentStep(find, layouts, t, NetImage(layouts, others) + rest, Walked(HostImage(others) + rest, others));
      Associate(NetTlv(layouts, t), NetImage(layouts, others), rest);
      Associate(HostTlv(t), HostImage(others), rest);
    }
  }

  lemma NoRest(s: seq<U8>)
    ensures s + [] == s
  {
  }

  lemma SuffixOnly(find: Finder, layouts: Layouts, ts: seq<TLV>)
    requires Lawful(layouts) && Within(find) && Finds(find, layouts)
    requires AllSendable(layouts, ts) && forall i | 0 <= i < |ts| :: Survives(layouts, ts[i])
    ensures Walk(find, NetImage(layouts, ts)) == Walked(HostImage(ts), ts)
  {
    SuffixRoundTrip(find, layouts, ts, []);
    NoRest(NetImage(layouts, ts));
    NoRest(HostImage(ts));
  }
}
