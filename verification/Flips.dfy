/** Changing the byte order of fields of a buffer in place, on a host whose byte
    order is the reverse of the network's. */
module Flips {
  import opened Octets

  datatype Field = Field(off: nat, size: nat)

  predicate In(f: Field, k: int) {
    f.off <= k < f.off + f.size
  }

  /** Where the octet at k comes from when each field is reversed. */
  function Mirror(fs: seq<Field>, k: int): int {
    if fs == [] then k
    else if In(fs[0], k) then 2 * fs[0].off + fs[0].size - 1 - k
    else Mirror(fs[1..], k)
  }

  /** The fields lie within n octets and do not overlap. */
  ghost predicate Apart(fs: seq<Field>, n: nat) {
    && (forall i | 0 <= i < |fs| :: fs[i].off + fs[i].size <= n)
    && (forall i, j | 0 <= i < j < |fs| ::
          fs[i].off + fs[i].size <= fs[j].off || fs[j].off + fs[j].size <= fs[i].off)
  }

  lemma ApartRest(fs: seq<Field>, n: nat)
    requires Apart(fs, n) && fs != []
    ensures Apart(fs[1..], n)
  {
  }

  lemma {:induction false} MirrorOutside(fs: seq<Field>, k: int)
    requires forall i | 0 <= i < |fs| :: !In(fs[i], k)
    ensures Mirror(fs, k) == k
  {
    if fs != [] {
      assert !In(fs[0], k);
      MirrorOutside(fs[1..], k);
    }
  }

  lemma {:induction false} MirrorInside(fs: seq<Field>, n: nat, i: nat, k: int)
    requires Apart(fs, n) && i < |fs| && In(fs[i], k)
    ensures Mirror(fs, k) == 2 * fs[i].off + fs[i].size - 1 - k
  {
    if i > 0 {
      assert !In(fs[0], k);
      ApartRest(fs, n);
      MirrorInside(fs[1..], n, i - 1, k);
    }
  }

  lemma {:induction false} MirrorBounds(fs: seq<Field>, n: nat, k: int)
    requires Apart(fs, n) && 0 <= k < n
    ensures 0 <= Mirror(fs, k) < n
  {
    if fs != [] && !In(fs[0], k) {
      ApartRest(fs, n);
      MirrorBounds(fs[1..], n, k);
    }
  }

  lemma MirrorTwice(fs: seq<Field>, n: nat, k: int)
    requires Apart(fs, n) && 0 <= k < n
    ensures Mirror(fs, Mirror(fs, k)) == k
  {
    if i: nat :| i < |fs| && In(fs[i], k) {
      MirrorInside(fs, n, i, k);
      MirrorInside(fs, n, i, Mirror(fs, k));
    } else {
      assert forall i | 0 <= i < |fs| :: !In(fs[i], k);
      MirrorOutside(fs, k);
    }
  }

  /** The buffer with each field reversed. */
  function Flipped(s: seq<U8>, fs: seq<Field>): (r: seq<U8>)
    requires Apart(fs, |s|)
    ensures |r| == |s|
  {
    seq(|s|, k requires 0 <= k < |s| => (MirrorBounds(fs, |s|, k); s[Mirror(fs, k)]))
  }

  /** Reversing fields twice restores the buffer. */
  lemma FlippedTwice(s: seq<U8>, fs: seq<Field>)
    requires Apart(fs, |s|)
    ensures Flipped(Flipped(s, fs), fs) == s
  {
    forall k | 0 <= k < |s| ensures Flipped(Flipped(s, fs), fs)[k] == s[k] {
      MirrorBounds(fs, |s|, k);
      MirrorTwice(fs, |s|, k);
    }
  }

  // ---------------------------------------------------------------------
  // Numbers
  // ---------------------------------------------------------------------

  /** The number whose octets start with the least significant. */
  function Little(s: seq<U8>): nat {
    if s == [] then 0 else s[0] + 0x100 * Little(s[1..])
  }

  /** The number whose octets start with the most significant. */
  function Big(s: seq<U8>): nat {
    if s == [] then 0 else 0x100 * Big(s[..|s| - 1]) + s[|s| - 1]
  }

  lemma {:induction false} ReversedNumber(s: seq<U8>, r: seq<U8>)
    requires |r| == |s| && forall k | 0 <= k < |s| :: r[k] == s[|s| - 1 - k]
    ensures Big(r) == Little(s)
  {
    if s != [] {
      ReversedNumber(s[1..], r[..|r| - 1]);
    }
  }

  function Part(s: seq<U8>, f: Field): seq<U8>
    requires f.off + f.size <= |s|
  {
    s[f.off..f.off + f.size]
  }

  /** Reversing fields changes the byte order of the number in each of them, and
      no octet outside. */
  lemma FlippedNumbers(s: seq<U8>, fs: seq<Field>)
    requires Apart(fs, |s|)
    ensures forall i | 0 <= i < |fs| ::
              && Big(Part(Flipped(s, fs), fs[i])) == Little(Part(s, fs[i]))
              && Little(Part(Flipped(s, fs), fs[i])) == Big(Part(s, fs[i]))
    ensures forall k | 0 <= k < |s| && (forall i | 0 <= i < |fs| :: !In(fs[i], k)) :: Flipped(s, fs)[k] == s[k]
  {
    forall i | 0 <= i < |fs|
      ensures Big(Part(Flipped(s, fs), fs[i])) == Little(Part(s, fs[i])) && Little(Part(Flipped(s, fs), fs[i])) == Big(Part(s, fs[i]))
    {
      var a, b, n := Part(s, fs[i]), Part(Flipped(s, fs), fs[i]), fs[i].size;
      forall k | 0 <= k < n ensures b[k] == a[n - 1 - k] {
        MirrorInside(fs, |s|, i, fs[i].off + k);
      }
      ReversedNumber(a, b);
      assert forall k | 0 <= k < n :: a[k] == b[n - 1 - k];
      ReversedNumber(b, a);
    }
    forall k | 0 <= k < |s| && (forall i | 0 <= i < |fs| :: !In(fs[i], k)) ensures Flipped(s, fs)[k] == s[k] {
      MirrorOutside(fs, k);
    }
  }

  lemma ApartPrefix(fs: seq<Field>, n: nat, i: nat)
    requires Apart(fs, n) && i <= |fs|
    ensures Apart(fs[..i], n)
  {
  }

  /** One field more. */
  lemma MirrorMore(fs: seq<Field>, n: nat, i: nat, k: int)
    requires Apart(fs, n) && i < |fs| && 0 <= k < n
    ensures Mirror(fs[..i + 1], k) == if In(fs[i], k) then 2 * fs[i].off + fs[i].size - 1 - k else Mirror(fs[..i], k)
  {
    var more := fs[..i + 1];
    ApartPrefix(fs, n, i);
    ApartPrefix(fs, n, i + 1);
    if In(fs[i], k) {
      MirrorInside(more, n, i, k);
    } else if j: nat :| j < i && In(fs[j], k) {
      assert more[j] == fs[j] == fs[..i][j];
      MirrorInside(more, n, j, k);
      MirrorInside(fs[..i], n, j, k);
    } else {
      assert forall j | 0 <= j < i :: !In(fs[j], k);
      MirrorOutside(more, k);
      MirrorOutside(fs[..i], k);
    }
  }

  lemma FlippedMore(s: seq<U8>, fs: seq<Field>, i: nat)
    requires Apart(fs, |s|) && i < |fs|
    ensures Apart(fs[..i], |s|) && Apart(fs[..i + 1], |s|) && Apart([fs[i]], |s|)
    ensures Flipped(Flipped(s, fs[..i]), [fs[i]]) == Flipped(s, fs[..i + 1])
  {
    ApartPrefix(fs, |s|, i);
    ApartPrefix(fs, |s|, i + 1);
    var f := fs[i];
    assert Apart([f], |s|);
    forall k | 0 <= k < |s| ensures Flipped(Flipped(s, fs[..i]), [f])[k] == Flipped(s, fs[..i + 1])[k] {
      MirrorBounds([f], |s|, k);
      var m := Mirror([f], k);
      assert [f][1..] == [];
      MirrorMore(fs, |s|, i, k);
      if In(f, k) {
        assert forall j | 0 <= j < i :: !In(fs[j], m);
        MirrorOutside(fs[..i], m);
      }
    }
  }

  /** Reverses one field. */
  method FlipField(a: array<U8>, off: nat, size: nat)
    requires off + size <= a.Length
    modifies a
    ensures forall k | 0 <= k < a.Length ::
              a[k] == if off <= k < off + size then old(a[2 * off + size - 1 - k]) else old(a[k])
  {
    for i := 0 to size / 2
      invariant forall k | 0 <= k < a.Length ::
                  a[k] == if off <= k < off + i || off + size - i <= k < off + size then old(a[2 * off + size - 1 - k]) else old(a[k])
    {
      a[off + i], a[off + size - 1 - i] := a[off + size - 1 - i], a[off + i];
    }
  }

  /** Reverses fields of the n octets from base on. */
  method FlipFields(a: array<U8>, base: nat, n: nat, fs: seq<Field>)
    requires base + n <= a.Length && Apart(fs, n)
    modifies a
    ensures a[..base] == old(a[..base]) && a[base + n..] == old(a[base + n..])
    ensures a[base..base + n] == Flipped(old(a[base..base + n]), fs)
  {
    ghost var s := a[base..base + n];
    assert Flipped(s, fs[..0]) == s;
    for i := 0 to |fs|
      invariant a[..base] == old(a[..base]) && a[base + n..] == old(a[base + n..])
      invariant Apart(fs[..i], n) && a[base..base + n] == Flipped(s, fs[..i])
    {
      FlippedMore(s, fs, i);
      FlipOne(a, base, n, fs[i]);
    }
    assert fs[..|fs|] == fs;
  }

  lemma FlippedByOne(s: seq<U8>, f: Field, k: nat)
    requires Apart([f], |s|) && k < |s|
    ensures f.off + f.size <= |s| && Flipped(s, [f])[k] == s[if In(f, k) then 2 * f.off + f.size - 1 - k else k]
  {
    assert [f][0].off + [f][0].size <= |s|;
    MirrorBounds([f], |s|, k);
    if In(f, k) {
      MirrorInside([f], |s|, 0, k);
    } else {
      MirrorOutside([f], k);
    }
  }

  method FlipOne(a: array<U8>, base: nat, n: nat, f: Field)
    requires base + n <= a.Length && Apart([f], n)
    modifies a
    ensures a[..base] == old(a[..base]) && a[base + n..] == old(a[base + n..])
    ensures a[base..base + n] == Flipped(old(a[base..base + n]), [f])
  {
    hide Mirror;
    ghost var s := a[base..base + n];
    assert [f][0].off + [f][0].size <= n;
    FlipField(a, base + f.off, f.size);
    forall k: nat | k < n ensures a[base + k] == Flipped(s, [f])[k] {
      FlippedByOne(s, f, k);
      assert In(f, k) ==> s[2 * f.off + f.size - 1 - k] == old(a[2 * (base + f.off) + f.size - 1 - (base + k)]);
    }
  }
}
