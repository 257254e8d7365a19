/** The TLVs behind a message, in place in its buffer (msg.c, tlv.c). */
module SuffixBuffer {
  import opened Octets
  import opened DataSets
  import opened Flips
  import opened Tlv
  import opened Suffix

  // ---------------------------------------------------------------------
  // One TLV
  // ---------------------------------------------------------------------

  /** The octets that scaled_ns_n2h() and scaled_ns_h2n() write at o + 2. */
  method RebuildNanoseconds(a: array<U8>, o: nat)
    requires o + 12 <= a.Length
    modifies a
    ensures forall k | 0 <= k < a.Length :: a[k] ==
              if o + 2 <= k < o + 8 then 0 else if k == o + 8 then old(a[o]) else if k == o + 9 then old(a[o + 1]) else old(a[k])
  {
    var first, second := a[o], a[o + 1];
    for i := 0 to 6
      invariant forall k | 0 <= k < a.Length :: a[k] == if o + 2 <= k < o + 2 + i then 0 else old(a[k])
    {
      a[o + 2 + i] := 0;
    }
    a[o + 8], a[o + 9] := first, second;
  }

  method OverwriteValue(a: array<U8>, scaled: Option<nat>, ghost f: seq<U8>, ghost v: seq<U8>, ghost b: seq<U8>, p: nat)
    requires a[..] == f + v + b && |f| == p && (scaled.Some? ==> scaled.value + 12 <= |v|)
    modifies a
    ensures a[..] == f + Overwritten(v, scaled) + b
  {
    if scaled.Some? {
      var o := scaled.value;
      ghost var was := a[..];
      RebuildNanoseconds(a, p + o);
      OverwrittenIs(was, a[..], f, v, b, o);
    }
  }

  lemma OctetOf(f: seq<U8>, v: seq<U8>, b: seq<U8>, k: nat)
    requires k < |f| + |v| + |b|
    ensures (f + v + b)[k] == if k < |f| then f[k] else if k < |f| + |v| then v[k - |f|] else b[k - |f| - |v|]
  {
  }

  lemma OverwrittenIs(was: seq<U8>, now: seq<U8>, f: seq<U8>, v: seq<U8>, b: seq<U8>, o: nat)
    requires was == f + v + b && o + 12 <= |v| && |now| == |was|
    requires var q := |f| + o;
             forall k | 0 <= k < |now| :: now[k] ==
               if q + 2 <= k < q + 8 then 0 else if k == q + 8 then was[q] else if k == q + 9 then was[q + 1] else was[k]
    ensures now == f + Overwritten(v, Some(o)) + b
  {
    OctetOf(f, v, b, |f| + o);
    OctetOf(f, v, b, |f| + o + 1);
    var w := Overwritten(v, Some(o));
    forall k: nat | k < |now| ensures now[k] == (f + w + b)[k] {
      OctetOf(f, v, b, k);
      OctetOf(f, w, b, k);
    }
  }

  /** tlv_post_recv() and tlv_pre_send() on the n octets of a value v, between f
      and b. */
  method ConvertValue(a: array<U8>, p: nat, n: nat, l: Layout, ghost f: seq<U8>, ghost v: seq<U8>, ghost b: seq<U8>)
    requires a[..] == f + v + b && |f| == p && |v| == n && Tlv.Proper(l, n)
    modifies a
    ensures a[..] == f + Converted(v, l) + b
  {
    OverwriteValue(a, l.scaled, f, v, b, p);
    ghost var w := Overwritten(v, l.scaled);
    assert a[..p] == f && a[p..p + n] == w && a[p + n..] == b;
    FlipFields(a, p, n, l.fields);
    assert a[..] == a[..p] + a[p..p + n] + a[p + n..];
  }

  /** Writes the type and the length of a TLV in place of h. */
  method WriteHead(a: array<U8>, p: nat, kind: seq<U8>, length: seq<U8>, ghost f: seq<U8>, ghost h: seq<U8>, ghost b: seq<U8>)
    requires a[..] == f + h + b && |f| == p && |h| == 4 && |kind| == |length| == 2
    modifies a
    ensures a[..] == f + (kind + length) + b
  {
    a[p], a[p + 1] := kind[0], kind[1];
    a[p + 2], a[p + 3] := length[0], length[1];
    assert a[..] == f + (kind + length) + b;
  }

  lemma Regroup(f: seq<U8>, h: seq<U8>, v: seq<U8>, b: seq<U8>)
    ensures f + (h + v) + b == (f + h) + v + b == f + h + (v + b)
  {
  }

  /** Converts a value v and replaces the head h before it. */
  method ConvertTlv(
    a: array<U8>, p: nat, n: nat, l: Layout, kind: seq<U8>, length: seq<U8>,
    ghost f: seq<U8>, ghost h: seq<U8>, ghost v: seq<U8>, ghost b: seq<U8>)
    requires a[..] == f + (h + v) + b && |f| == p && |h| == 4 && |v| == n && |kind| == |length| == 2 && Tlv.Proper(l, n)
    modifies a
    ensures a[..] == f + (kind + length + Converted(v, l)) + b
  {
    Regroup(f, h, v, b);
    ConvertValue(a, p + 4, n, l, f + h, v, b);
    ghost var w := Converted(v, l);
    Regroup(f, h, w, b);
    WriteHead(a, p, kind, length, f, h, w + b);
    Regroup(f, kind + length, w, b);
  }

  lemma Peek(now: seq<U8>, f: seq<U8>, s: seq<U8>, b: seq<U8>, i: nat, j: nat)
    requires now == f + s + b && i <= j <= |s|
    ensures now[|f| + i..|f| + j] == s[i..j]
  {
    forall k | 0 <= k < j - i ensures now[|f| + i..|f| + j][k] == s[i..j][k] {
      assert now[|f| + (i + k)] == s[i + k];
    }
  }

  lemma HeadWords(s: seq<U8>)
    requires |s| >= 4
    ensures Word(s[0..4], 0, true) == Word(s, 0, true) && Word(s[0..4], 2, true) == Word(s, 2, true)
  {
  }

  lemma ProperAt(layouts: Layouts, t: U16, v: seq<U8>)
    requires Lawful(layouts) && layouts(t, v, true).Some?
    ensures Tlv.Proper(layouts(t, v, true).value, |v|)
  {
    hide Tlv.Proper, RoundTrips;
  }

  /** Looks at the first TLV of a suffix s, between f and b, without converting it. */
  method Inspect(layouts: Layouts, a: array<U8>, p: nat, len: nat, ghost f: seq<U8>, ghost s: seq<U8>, ghost b: seq<U8>)
    returns (kind: U16, n: U16, l: Option<Layout>)
    requires Lawful(layouts) && a[..] == f + s + b && |f| == p && |s| == len >= 4
    ensures First(layouts, s).None? <==> l.None?
    ensures l.Some? ==>
              && 4 + n <= len && Tlv.Proper(l.value, n)
              && First(layouts, s) == Some(TLV(kind, CutLength(kind, n), Converted(s[4..4 + n], l.value)))
  {
    hide Converted, CutLength, Lawful, Word, Tlv.Proper;
    Peek(a[..], f, s, b, 0, 4);
    var head := a[p..p + 4];
    assert head == s[0..4];
    HeadWords(s);
    kind, n, l := Word(head, 0, true), Word(head, 2, true), None;
    if n % 2 == 0 && n <= len - 4 {
      Peek(a[..], f, s, b, 4, 4 + n);
      l := layouts(kind, a[p + 4..p + 4 + n], true);
      if l.Some? {
        ProperAt(layouts, kind, s[4..4 + n]);
      }
    }
  }

  /** The first step of a walk over a suffix s: its first TLV is converted, if it
      is there. */
  method ReceiveFirst(layouts: Layouts, a: array<U8>, p: nat, len: nat, ghost f: seq<U8>, ghost s: seq<U8>, ghost b: seq<U8>)
    returns (ok: bool, n: nat, ghost t: TLV)
    requires Lawful(layouts) && a[..] == f + s + b && |f| == p && |s| == len >= 4
    modifies a
    ensures if ok then
              && First(layouts, s) == Some(t) && n == |t.value| && 4 + n <= len
              && a[..] == f + HostTlv(t) + (s[4 + n..] + b)
            else First(layouts, s).None?
  {
    var kind: U16, m: U16, l: Option<Layout>;
    kind, m, l := Inspect(layouts, a, p, len, f, s, b);
    ok, n, t := l.Some?, m, TLV(0, 0, []);
    if ok {
      t := First(layouts, s).value;
      Apart3(f, s, b, 4 + n);
      ConvertTlv(a, p, n, l.value, Host16(kind), Host16(CutLength(kind, m)), f, s[..4], s[4..4 + n], s[4 + n..] + b);
    }
  }

  lemma Apart3(f: seq<U8>, s: seq<U8>, b: seq<U8>, n: nat)
    requires 4 <= n <= |s|
    ensures f + s + b == f + (s[..4] + s[4..n]) + (s[n..] + b)
  {
    assert s == (s[..4] + s[4..n]) + s[n..];
  }

  // ---------------------------------------------------------------------
  // Receiving
  // ---------------------------------------------------------------------

  /** Where the TLVs are, if the first one is at p. */
  function Offsets(p: nat, ts: seq<TLV>): (os: seq<nat>)
    ensures |os| == |ts|
    decreases |ts|
  {
    if ts == [] then [] else [p] + Offsets(p + 4 + |ts[0].value|, ts[1..])
  }

  lemma {:induction false} ImageAppend(ts: seq<TLV>, t: TLV)
    ensures HostImage(ts + [t]) == HostImage(ts) + HostTlv(t)
  {
    if ts == [] {
      assert ts + [t] == [t] && [t][1..] == [];
    } else {
      ImageAppend(ts[1..], t);
      assert ts == [ts[0]] + ts[1..];
      ImageCons(ts[0], ts[1..] + [t]);
      assert ts + [t] == [ts[0]] + (ts[1..] + [t]);
      Associate(HostTlv(ts[0]), HostImage(ts[1..]), HostTlv(t));
    }
  }

  lemma OffsetsCons(p: nat, t: TLV, ts: seq<TLV>)
    ensures Offsets(p, [t] + ts) == [p] + Offsets(p + 4 + |t.value|, ts)
  {
    assert ([t] + ts)[1..] == ts;
  }

  lemma {:induction false} OffsetsAppend(p: nat, ts: seq<TLV>, t: TLV)
    ensures Offsets(p, ts + [t]) == Offsets(p, ts) + [p + |HostImage(ts)|]
    decreases |ts|
  {
    if ts == [] {
      OffsetsCons(p, t, []);
      assert ts + [t] == [t] + [];
    } else {
      var first, others := ts[0], ts[1..];
      var q := p + 4 + |first.value|;
      OffsetsAppend(q, others, t);
      OffsetsCons(p, first, others);
      OffsetsCons(p, first, others + [t]);
      ImageCons(first, others);
      assert ts == [first] + others && ts + [t] == [first] + (others + [t]);
    }
  }

  /** How far a walk over s has come: the TLVs ts are behind it, rest is left. */
  ghost predicate Walking(find: Finder, s: seq<U8>, ts: seq<TLV>, rest: seq<U8>)
    requires Within(find)
  {
    var w := Walk(find, rest);
    Walk(find, s) == if w.BadMsg? then BadMsg else Walked(HostImage(ts) + w.image, ts + w.tlvs)
  }

  lemma WalkingStarts(find: Finder, s: seq<U8>)
    requires Within(find)
    ensures Walking(find, s, [], s)
  {
    var w := Walk(find, s);
    if w.Walked? {
      assert [] + w.image == w.image && [] + w.tlvs == w.tlvs;
    }
  }

  lemma NotFound(find: Finder, s: seq<U8>)
    requires Within(find) && |s| >= 4
    ensures find(s).None? ==> Walk(find, s).BadMsg?
  {
  }

  lemma WalkingOn(find: Finder, s: seq<U8>, ts: seq<TLV>, rest: seq<U8>)
    requires Within(find) && Walking(find, s, ts, rest) && |rest| >= 4
    ensures find(rest).None? ==> Walk(find, s).BadMsg?
    ensures find(rest).Some? ==>
              var t := find(rest).value; Walking(find, s, ts + [t], rest[4 + |t.value|..])
  {
    NotFound(find, rest);
    hide Walk, HostImage, HostTlv, CutRight;
    if find(rest).Some? {
      var t := find(rest).value;
      WalkingPast(find, s, ts, rest, t, rest[4 + |t.value|..]);
    }
  }

  lemma WalkingPast(find: Finder, s: seq<U8>, ts: seq<TLV>, rest: seq<U8>, t: TLV, more: seq<U8>)
    requires Within(find) && Walking(find, s, ts, rest) && |rest| >= 4 && find(rest) == Some(t)
    requires 4 + |t.value| <= |rest| && more == rest[4 + |t.value|..]
    ensures Walking(find, s, ts + [t], more)
  {
    WalkStep(find, rest, t, more);
    hide Walk, HostImage, HostTlv, CutRight, Within;
    var w := Walk(find, more);
    if w.Walked? {
      ImageAppend(ts, t);
      Associate(HostImage(ts), HostTlv(t), w.image);
      assert ts + ([t] + w.tlvs) == ts + [t] + w.tlvs;
    }
  }

  lemma WalkingEnds(find: Finder, s: seq<U8>, ts: seq<TLV>, rest: seq<U8>)
    requires Within(find) && Walking(find, s, ts, rest) && |rest| < 4
    ensures Walk(find, s) == Walked(HostImage(ts) + rest, ts)
  {
    assert ts + [] == ts;
  }

  lemma Advance(f: seq<U8>, ts: seq<TLV>, t: TLV, b: seq<U8>)
    ensures f + HostImage(ts) + HostTlv(t) + b == f + HostImage(ts + [t]) + b
    ensures |HostImage(ts + [t])| == |HostImage(ts)| + 4 + |t.value|
    ensures Offsets(|f|, ts + [t]) == Offsets(|f|, ts) + [|f| + |HostImage(ts)|]
  {
    ImageAppend(ts, t);
    OffsetsAppend(|f|, ts, t);
    Associate(f, HostImage(ts), HostTlv(t));
  }

  lemma NoTlvs(p: nat)
    ensures HostImage([]) == [] && Offsets(p, []) == []
  {
  }

  /** suffix_post_recv() on the suffix s, len octets from p on, between f and b. */
  method PostRecv(
    ghost find: Finder, layouts: Layouts, a: array<U8>, p: nat, len: nat, ghost f: seq<U8>, ghost s: seq<U8>, ghost b: seq<U8>)
    returns (ok: bool, offsets: seq<nat>)
    requires Lawful(layouts) && Within(find) && Finds(find, layouts)
    requires a[..] == f + s + b && |f| == p && |s| == len
    modifies a
    ensures ok <==> Walk(find, s).Walked?
    ensures ok ==> a[..] == f + Walk(find, s).image + b && offsets == Offsets(p, Walk(find, s).tlvs)
  {
    hide Walk, Walking, HostImage, Offsets, Lawful, First, HostTlv;
    ghost var ts, rest := [], s;
    var ptr, left := p, len;
    offsets := [];
    WalkingStarts(find, s);
    NoTlvs(p);
    assert f + [] + (rest + b) == f + rest + b;
    while left >= 4
      invariant |rest| == left && ptr == p + |HostImage(ts)|
      invariant a[..] == f + HostImage(ts) + (rest + b)
      invariant Walking(find, s, ts, rest) && offsets == Offsets(p, ts)
    {
      WalkingOn(find, s, ts, rest);
      assert At(rest);
      var found, n;
      ghost var t;
      Associate(f + HostImage(ts), rest, b);
      found, n, t := ReceiveFirst(layouts, a, ptr, left, f + HostImage(ts), rest, b);
      if !found {
        return false, offsets;
      }
      Advance(f, ts, t, rest[4 + n..] + b);
      offsets := offsets + [ptr];
      ptr, left, ts, rest := ptr + 4 + n, left - 4 - n, ts + [t], rest[4 + n..];
    }
    WalkingEnds(find, s, ts, rest);
    Associate(f, HostImage(ts), rest);
    Associate(f + HostImage(ts), rest, b);
    ok := true;
  }

  // ---------------------------------------------------------------------
  // Sending
  // ---------------------------------------------------------------------

  lemma SendableParts(layouts: Layouts, ts: seq<TLV>, i: nat)
    requires AllSendable(layouts, ts) && i <= |ts|
    ensures AllSendable(layouts, ts[..i]) && AllSendable(layouts, ts[i..])
  {
  }

  lemma {:induction false} NetAppend(layouts: Layouts, ts: seq<TLV>, t: TLV)
    requires Lawful(layouts) && AllSendable(layouts, ts) && Sendable(layouts, t)
    ensures AllSendable(layouts, ts + [t])
    ensures NetImage(layouts, ts + [t]) == NetImage(layouts, ts) + NetTlv(layouts, t)
  {
    if ts == [] {
      assert ts + [t] == [t] && [t][1..] == [];
    } else {
      hide NetImage, NetTlv, Sendable, Lawful;
      var first, others := ts[0], ts[1..];
      NetAppend(layouts, others, t);
      assert ts == [first] + others && ts + [t] == [first] + (others + [t]);
      NetCons(layouts, first, others);
      NetCons(layouts, first, others + [t]);
      Associate(NetTlv(layouts, first), NetImage(layouts, others), NetTlv(layouts, t));
    }
  }

  lemma {:induction false} OffsetIs(layouts: Layouts, p: nat, ts: seq<TLV>, i: nat)
    requires Lawful(layouts) && AllSendable(layouts, ts) && i < |ts|
    ensures AllSendable(layouts, ts[..i]) && Offsets(p, ts)[i] == p + |NetImage(layouts, ts[..i])|
    decreases i
  {
    SendableParts(layouts, ts, i);
    if i > 0 {
      var t, others := ts[0], ts[1..];
      var some := others[..i - 1];
      assert ts == [t] + others && ts[..i] == [t] + some;
      OffsetIs(layouts, p + 4 + |t.value|, others, i - 1);
      OffsetsCons(p, t, others);
      NetCons(layouts, t, some);
    }
  }

  /** tlv_pre_send() and the conversion of the head, for the TLV at q. */
  method SendOne(layouts: Layouts, a: array<U8>, q: nat, ghost f: seq<U8>, ghost t: TLV, ghost b: seq<U8>)
    requires Lawful(layouts) && Sendable(layouts, t) && a[..] == f + HostTlv(t) + b && |f| == q
    modifies a
    ensures a[..] == f + NetTlv(layouts, t) + b
  {
    ghost var h, s := Host16(t.kind) + Host16(t.length), HostTlv(t);
    Peek(a[..], f, s, b, 0, 4);
    Peek(a[..], f, s, b, 4, |s|);
    var head := a[q..q + 4];
    assert head == s[0..4] == h && s[4..] == t.value;
    var kind, n := Word(head, 0, false), Word(head, 2, false);
    assert kind == t.kind && n == t.length;
    assert a[q + 4..q + 4 + n] == s[4..|s|] == t.value;
    var l := layouts(kind, a[q + 4..q + 4 + n], false);
    ConvertTlv(a, q, n, l.value, Net16(kind), Net16(n), f, h, t.value, b);
  }

  lemma SendStep(f: seq<U8>, sent: seq<U8>, t: seq<U8>, more: seq<U8>, b: seq<U8>)
    ensures f + sent + (t + more + b) == (f + sent) + t + (more + b)
    ensures (f + sent) + t + (more + b) == f + (sent + t) + (more + b)
  {
    Associate(t, more, b);
    Associate(f + sent, t, more + b);
    Associate(f, sent, t);
  }

  /** suffix_pre_send() on TLVs that follow each other from p on, between f and b. */
  method PreSend(layouts: Layouts, a: array<U8>, p: nat, offsets: seq<nat>, ghost f: seq<U8>, ghost ts: seq<TLV>, ghost b: seq<U8>)
    requires Lawful(layouts) && AllSendable(layouts, ts)
    requires a[..] == f + HostImage(ts) + b && |f| == p && offsets == Offsets(p, ts)
    modifies a
    ensures a[..] == f + NetImage(layouts, ts) + b
  {
    NothingSent(layouts, ts);
    hide HostImage, NetImage, NetTlv, HostTlv, Offsets, Lawful, Sendable;
    assert f + [] == f;
    Associate(f, HostImage(ts), b);
    for i := 0 to |offsets|
      invariant AllSendable(layouts, ts[..i])
      invariant a[..] == f + NetImage(layouts, ts[..i]) + (HostImage(ts[i..]) + b)
    {
      ghost var sent, t, more := NetImage(layouts, ts[..i]), ts[i], HostImage(ts[i + 1..]);
      OffsetIs(layouts, p, ts, i);
      assert ts[i..] == [t] + ts[i + 1..] && ts[..i + 1] == ts[..i] + [t];
      ImageCons(t, ts[i + 1..]);
      SendStep(f, sent, HostTlv(t), more, b);
      SendOne(layouts, a, offsets[i], f + sent, t, more + b);
      NetAppend(layouts, ts[..i], t);
      SendStep(f, sent, NetTlv(layouts, t), more, b);
    }
    assert ts[..|ts|] == ts && [] + b == b;
  }

  lemma NothingSent(layouts: Layouts, ts: seq<TLV>)
    requires Lawful(layouts) && AllSendable(layouts, ts)
    ensures AllSendable(layouts, ts[..0]) && NetImage(layouts, ts[..0]) == []
    ensures ts[0..] == ts && HostImage(ts[|ts|..]) == []
  {
    hide Lawful;
  }
}
