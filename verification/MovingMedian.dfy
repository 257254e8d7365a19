/** The moving median (mmedian.c). */
module MovingMedian {
  import opened CArith
  import opened CircularBuffer
  import opened Lists

  // ---------------------------------------------------------------------
  // What it should return
  // ---------------------------------------------------------------------

  ghost predicate Ascending(s: seq<int>) {
    forall i, j | 0 <= i < j < |s| :: s[i] <= s[j]
  }

  function Inserted(s: seq<int>, x: int): (r: seq<int>)
    ensures multiset(r) == multiset(s) + multiset{x}
  {
    if s == [] then [x]
    else
      var n := |s| - 1;
      assert s == s[..n] + [s[n]];
      if s[n] <= x then s + [x] else Inserted(s[..n], x) + [s[n]]
  }

  lemma {:induction false} InsertedStaysBelow(s: seq<int>, x: int, b: int)
    requires x <= b && forall i | 0 <= i < |s| :: s[i] <= b
    ensures forall i | 0 <= i < |Inserted(s, x)| :: Inserted(s, x)[i] <= b
  {
    if s != [] && s[|s| - 1] > x {
      InsertedStaysBelow(s[..|s| - 1], x, b);
    }
  }

  lemma {:induction false} InsertedAscends(s: seq<int>, x: int)
    requires Ascending(s)
    ensures Ascending(Inserted(s, x))
  {
    var n := |s| - 1;
    if s != [] && s[n] > x {
      InsertedAscends(s[..n], x);
      InsertedStaysBelow(s[..n], x, s[n]);
    }
  }

  function Sort(s: seq<int>): (r: seq<int>)
    ensures multiset(r) == multiset(s) && Ascending(r) && |r| == |s|
  {
    if s == [] then []
    else
      var n := |s| - 1;
      assert s == s[..n] + [s[n]];
      InsertedAscends(Sort(s[..n]), s[n]);
      var r := Inserted(Sort(s[..n]), s[n]);
      assert |r| == |multiset(r)| == |s|;
      r
  }

  lemma LastIsGreatest(s: seq<int>, x: int)
    requires Ascending(s) && x in multiset(s)
    ensures s != [] && x <= s[|s| - 1]
  {
    assert x in s;
  }

  lemma LastRemoved(s: seq<int>)
    requires s != []
    ensures multiset(s[..|s| - 1]) == multiset(s) - multiset{s[|s| - 1]}
    ensures s[|s| - 1] in multiset(s)
  {
    assert s == s[..|s| - 1] + [s[|s| - 1]];
  }

  lemma SameLast(a: seq<int>, b: seq<int>)
    requires Ascending(a) && Ascending(b) && multiset(a) == multiset(b) && a != []
    ensures b != [] && a[|a| - 1] == b[|b| - 1]
    ensures multiset(a[..|a| - 1]) == multiset(b[..|b| - 1])
  {
    LastRemoved(a);
    LastIsGreatest(b, a[|a| - 1]);
    LastRemoved(b);
    LastIsGreatest(a, b[|b| - 1]);
  }

  lemma {:induction false} AscendingIsUnique(a: seq<int>, b: seq<int>)
    requires Ascending(a) && Ascending(b) && multiset(a) == multiset(b)
    ensures a == b
    decreases |a|
  {
    if a == [] {
      assert |multiset(b)| == 0;
    } else {
      SameLast(a, b);
      AscendingIsUnique(a[..|a| - 1], b[..|b| - 1]);
      assert a == a[..|a| - 1] + [a[|a| - 1]] && b == b[..|b| - 1] + [b[|b| - 1]];
    }
  }

  /** The middle of the sorted values, or of the two in the middle. */
  function MedianOf(w: seq<int>): int
    requires w != []
  {
    var s, n := Sort(w), |w|;
    if n % 2 == 1 then s[n / 2] else CDiv(s[n / 2 - 1] + s[n / 2], 2)
  }

  // ---------------------------------------------------------------------
  // Indexes sorted by value
  // ---------------------------------------------------------------------

  /** o lists each index below n once, except the index skip. */
  ghost predicate Indexes(o: seq<int>, n: nat, skip: int) {
    && |o| == (if 0 <= skip < n then n - 1 else n)
    && (forall i | 0 <= i < |o| :: 0 <= o[i] < n && o[i] != skip)
    && (forall i, j | 0 <= i < j < |o| :: o[i] != o[j])
    && (forall k | 0 <= k < n && k != skip :: k in o)
  }

  /** The values at the indexes. */
  function Values(o: seq<int>, v: seq<int>): (r: seq<int>)
    requires forall i | 0 <= i < |o| :: 0 <= o[i] < |v|
    ensures |r| == |o| && forall i | 0 <= i < |r| :: r[i] == v[o[i]]
  {
    seq(|o|, i requires 0 <= i < |o| => v[o[i]])
  }

  ghost predicate Ordered(o: seq<int>, n: nat, skip: int, v: seq<int>) {
    n <= |v| && Indexes(o, n, skip) && Ascending(Values(o, v))
  }

  lemma WithoutIndexes(o: seq<int>, n: nat, i: nat)
    requires Indexes(o, n, -1) && i < |o|
    ensures Indexes(Without(o, i), n, o[i])
  {
    var r := Without(o, i);
    forall k | 0 <= k < n && k != o[i] ensures k in r {
      assert k in o;
      var j :| 0 <= j < |o| && o[j] == k;
      assert r[if j < i then j else j - 1] == k;
    }
  }

  /** Leaving out an index, whatever its value has become, keeps the order. */
  lemma WithoutOrdered(o: seq<int>, n: nat, v: seq<int>, i: nat, x: int)
    requires Ordered(o, n, -1, v) && i < |o|
    ensures Ordered(Without(o, i), n, o[i], v[o[i] := x])
  {
    WithoutIndexes(o, n, i);
    var r, v' := Without(o, i), v[o[i] := x];
    forall a, b | 0 <= a < b < |r| ensures Values(r, v')[a] <= Values(r, v')[b] {
      var a', b' := if a < i then a else a + 1, if b < i then b else b + 1;
      assert Values(r, v')[a] == Values(o, v)[a'] && Values(r, v')[b] == Values(o, v)[b'];
    }
  }

  function InsertedAt(o: seq<int>, j: nat, k: int): seq<int>
    requires j <= |o|
  {
    o[..j] + [k] + o[j..]
  }

  lemma InsertedIndexes(o: seq<int>, n: nat, k: nat, j: nat)
    requires Indexes(o, n, k) && k < n && j <= |o|
    ensures Indexes(InsertedAt(o, j, k), n, -1)
  {
    var r := InsertedAt(o, j, k);
    forall m | 0 <= m < n ensures m in r {
      if m != k {
        assert m in o;
        var i :| 0 <= i < |o| && o[i] == m;
        assert r[if i < j then i else i + 1] == m;
      } else {
        assert r[j] == k;
      }
    }
  }

  /** Putting the left out index behind everything that is not greater. */
  lemma InsertedOrdered(o: seq<int>, n: nat, k: nat, v: seq<int>, j: nat)
    requires Ordered(o, n, k, v) && k < n && j <= |o|
    requires j > 0 ==> v[o[j - 1]] <= v[k]
    requires j < |o| ==> v[k] <= v[o[j]]
    ensures Ordered(InsertedAt(o, j, k), n, -1, v)
  {
    InsertedIndexes(o, n, k, j);
    InsertedAscending(o, n, k, v, j);
  }

  lemma InsertedAscending(o: seq<int>, n: nat, k: nat, v: seq<int>, j: nat)
    requires Ordered(o, n, k, v) && k < n && j <= |o|
    requires j > 0 ==> v[o[j - 1]] <= v[k]
    requires j < |o| ==> v[k] <= v[o[j]]
    ensures Ascending(Values(InsertedAt(o, j, k), v))
  {
    hide Ascending;
    ValuesInserted(o, n, k, v, j);
    AscendingInsert(Values(o, v), j, v[k]);
  }

  lemma ValuesInserted(o: seq<int>, n: nat, k: nat, v: seq<int>, j: nat)
    requires Ordered(o, n, k, v) && k < n && j <= |o|
    ensures Values(InsertedAt(o, j, k), v) == InsertedAt(Values(o, v), j, v[k])
  {
  }

  lemma AscendingInsert(s: seq<int>, j: nat, x: int)
    requires Ascending(s) && j <= |s|
    requires j > 0 ==> s[j - 1] <= x
    requires j < |s| ==> x <= s[j]
    ensures Ascending(InsertedAt(s, j, x))
  {
    var r := InsertedAt(s, j, x);
    forall a, b | 0 <= a < b < |r| ensures r[a] <= r[b] {
      assert r[a] == if a < j then s[a] else if a == j then x else s[a - 1];
      assert r[b] == if b < j then s[b] else if b == j then x else s[b - 1];
      if a < j - 1 {
        assert s[a] <= s[j - 1];
      }
      if j < b - 1 {
        assert s[j] <= s[b - 1];
      }
    }
  }

  lemma LastIndex(o: seq<int>, n: nat) returns (p: nat)
    requires n > 0 && Indexes(o, n, -1)
    ensures p < |o| && o[p] == n - 1 && Indexes(Without(o, p), n - 1, -1)
  {
    assert n - 1 in o;
    p :| 0 <= p < |o| && o[p] == n - 1;
    WithoutIndexes(o, n, p);
    var r := Without(o, p);
    assert forall k | 0 <= k < n - 1 :: k in r;
  }

  /** A list of all indexes permutes the values. */
  lemma {:induction false} IndexesPermute(o: seq<int>, n: nat, v: seq<int>)
    requires n <= |v| && Indexes(o, n, -1)
    ensures multiset(Values(o, v)) == multiset(v[..n])
  {
    if n == 0 {
      assert o == [];
    } else {
      var p := LastIndex(o, n);
      IndexesPermute(Without(o, p), n - 1, v);
      ValuesWithout(o, v, p);
      assert v[..n] == v[..n - 1] + [v[n - 1]];
    }
  }

  lemma ValuesWithout(o: seq<int>, v: seq<int>, p: nat)
    requires (forall i | 0 <= i < |o| :: 0 <= o[i] < |v|) && p < |o|
    ensures multiset(Values(o, v)) == multiset(Values(Without(o, p), v)) + multiset{v[o[p]]}
  {
    var s := Values(o, v);
    assert s == s[..p] + [s[p]] + s[p + 1..];
    assert Values(Without(o, p), v) == s[..p] + s[p + 1..];
  }

  /** The values in the order of their indexes are the sorted values. */
  lemma OrderedIsSorted(o: seq<int>, n: nat, v: seq<int>, w: seq<int>)
    requires Ordered(o, n, -1, v) && multiset(w) == multiset(v[..n])
    ensures Values(o, v) == Sort(w)
  {
    IndexesPermute(o, n, v);
    AscendingIsUnique(Values(o, v), Sort(w));
  }

  /** So the median is at the middle of the order. */
  lemma MiddleOfOrder(o: seq<int>, n: nat, v: seq<int>, w: seq<int>, h: nat)
    requires n > 0 && Ordered(o, n, -1, v) && multiset(w) == multiset(v[..n]) && |w| == n && h == n / 2
    ensures MedianOf(w) == if n % 2 == 1 then v[o[h]] else CDiv(v[o[h - 1]] + v[o[h]], 2)
  {
    OrderedIsSorted(o, n, v, w);
    var s := Sort(w);
    assert s[h] == v[o[h]];
    assert h > 0 ==> s[h - 1] == v[o[h - 1]];
  }
}
