/** Octet strings and the order memcmp() induces on them. */
module Octets {

  type U8 = x: nat | x < 0x100
  type U16 = x: nat | x < 0x1_0000

  /** The sign of memcmp(a, b): the first position that differs decides.
      Stated on naturals so that it also orders tuples of wider fields. */
  function Memcmp(a: seq<nat>, b: seq<nat>): (r: int)
    requires |a| == |b|
    ensures -1 <= r <= 1
  {
    if a == [] then 0
    else if a[0] < b[0] then -1
    else if a[0] > b[0] then 1
    else Memcmp(a[1..], b[1..])
  }

  function Sign(x: int): int {
    if x < 0 then -1 else if x > 0 then 1 else 0
  }

  lemma {:induction false} MemcmpAntisymmetric(a: seq<nat>, b: seq<nat>)
    requires |a| == |b|
    ensures Memcmp(b, a) == -Memcmp(a, b)
    ensures Memcmp(a, b) == 0 <==> a == b
  {
    if a != [] {
      MemcmpAntisymmetric(a[1..], b[1..]);
      assert a == [a[0]] + a[1..] && b == [b[0]] + b[1..];
    }
  }

  lemma {:induction false} MemcmpTransitive(a: seq<nat>, b: seq<nat>, c: seq<nat>)
    requires |a| == |b| == |c|
    requires Memcmp(a, b) <= 0 && Memcmp(b, c) <= 0
    ensures Memcmp(a, c) <= 0
    ensures Memcmp(a, b) < 0 || Memcmp(b, c) < 0 ==> Memcmp(a, c) < 0
  {
    if a != [] && a[0] == b[0] == c[0] {
      MemcmpTransitive(a[1..], b[1..], c[1..]);
    }
  }

  /** A comparison of concatenations is decided by the first unequal part. */
  lemma {:induction false} MemcmpConcat(a: seq<nat>, b: seq<nat>, c: seq<nat>, d: seq<nat>)
    requires |a| == |b| && |c| == |d|
    ensures Memcmp(a + c, b + d) == if Memcmp(a, b) != 0 then Memcmp(a, b) else Memcmp(c, d)
  {
    if a == [] {
      assert a + c == c && b + d == d;
    } else {
      MemcmpConcat(a[1..], b[1..], c, d);
      assert (a + c)[1..] == a[1..] + c && (b + d)[1..] == b[1..] + d;
    }
  }
}
