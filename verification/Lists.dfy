/** Searching, filtering and shortening lists. */
module Lists {

  /** The index of the first element that satisfies f, or the length. */
  function First<T>(s: seq<T>, f: T -> bool): (i: nat)
    ensures i <= |s|
    ensures i < |s| ==> f(s[i])
  {
    if s == [] || f(s[0]) then 0 else 1 + First(s[1..], f)
  }

  function Filter<T>(s: seq<T>, f: T -> bool): seq<T> {
    if s == [] then [] else (if f(s[0]) then [s[0]] else []) + Filter(s[1..], f)
  }

  function Without<T>(s: seq<T>, i: nat): seq<T>
    requires i < |s|
  {
    s[..i] + s[i + 1..]
  }

  lemma {:induction false} FirstIs<T>(s: seq<T>, f: T -> bool, i: nat)
    requires i <= |s|
    requires forall k | 0 <= k < i :: !f(s[k])
    requires i < |s| ==> f(s[i])
    ensures First(s, f) == i
  {
    if i > 0 {
      FirstIs(s[1..], f, i - 1);
    }
  }

  lemma FirstCons<T>(t: T, rest: seq<T>, f: T -> bool)
    ensures First([t] + rest, f) == if f(t) then 0 else 1 + First(rest, f)
  {
    assert ([t] + rest)[1..] == rest;
  }

  lemma {:induction false} FirstAppended<T>(s: seq<T>, t: T, f: T -> bool)
    ensures First(s + [t], f) == if First(s, f) < |s| then First(s, f) else if f(t) then |s| else |s| + 1
  {
    if s == [] {
      assert s + [t] == [t];
    } else {
      FirstAppended(s[1..], t, f);
      assert (s + [t])[1..] == s[1..] + [t];
    }
  }

  lemma FilterCons<T>(t: T, rest: seq<T>, f: T -> bool)
    ensures Filter([t] + rest, f) == if f(t) then [t] + Filter(rest, f) else Filter(rest, f)
  {
    assert ([t] + rest)[1..] == rest;
  }

  lemma ConsConcat<T>(t: T, a: seq<T>, b: seq<T>)
    ensures [t] + a + b == [t] + (a + b)
  {
  }

  lemma {:induction false} FilterConcat<T>(a: seq<T>, b: seq<T>, f: T -> bool)
    ensures Filter(a + b, f) == Filter(a, f) + Filter(b, f)
  {
    if a == [] {
      assert a + b == b;
    } else {
      var t, rest := a[0], a[1..];
      assert a == [t] + rest;
      FilterConcat(rest, b, f);
      FilterCons(t, rest, f);
      FilterCons(t, rest + b, f);
      ConsConcat(t, rest, b);
      ConsConcat(t, Filter(rest, f), Filter(b, f));
    }
  }

  lemma WithoutCons<T>(t: T, rest: seq<T>, i: nat)
    requires i < |rest|
    ensures Without([t] + rest, i + 1) == [t] + Without(rest, i)
  {
  }

  /** Removing an element that a filter drops anyway. */
  lemma FilterWithout<T>(s: seq<T>, i: nat, f: T -> bool)
    requires i < |s| && !f(s[i])
    ensures Filter(Without(s, i), f) == Filter(s, f)
  {
    var a, b := s[..i], s[i + 1..];
    assert s == a + ([s[i]] + b);
    FilterConcat(a, [s[i]] + b, f);
    FilterCons(s[i], b, f);
    FilterConcat(a, b, f);
  }

  /** A search for f in s finds the element that it finds in s filtered by g. */
  ghost predicate SameFirst<T>(s: seq<T>, f: T -> bool, g: T -> bool) {
    var kept := Filter(s, g);
    var i, j := First(s, f), First(kept, f);
    && (i == |s| <==> j == |kept|)
    && (i < |s| ==> kept[j] == s[i] && Filter(Without(s, i), g) == Without(kept, j))
  }

  lemma SameFirstHere<T>(t: T, rest: seq<T>, f: T -> bool, g: T -> bool)
    requires f(t) && g(t)
    ensures SameFirst([t] + rest, f, g)
  {
    hide First, Filter;
    FilterCons(t, rest, g);
    FirstCons(t, rest, f);
    FirstCons(t, Filter(rest, g), f);
    assert Without([t] + rest, 0) == rest && Without([t] + Filter(rest, g), 0) == Filter(rest, g);
  }

  lemma SameFirstKept<T>(t: T, rest: seq<T>, f: T -> bool, g: T -> bool)
    requires !f(t) && g(t) && SameFirst(rest, f, g)
    ensures SameFirst([t] + rest, f, g)
  {
    hide First, Filter, Without;
    var kept := Filter(rest, g);
    var i, j := First(rest, f), First(kept, f);
    FilterCons(t, rest, g);
    FirstCons(t, rest, f);
    FirstCons(t, kept, f);
    if i < |rest| {
      var w := Without(rest, i);
      WithoutCons(t, rest, i);
      WithoutCons(t, kept, j);
      FilterCons(t, w, g);
      assert ([t] + kept)[j + 1] == kept[j] && ([t] + rest)[i + 1] == rest[i];
    }
  }

  lemma SameFirstDropped<T>(t: T, rest: seq<T>, f: T -> bool, g: T -> bool)
    requires !f(t) && !g(t) && SameFirst(rest, f, g)
    ensures SameFirst([t] + rest, f, g)
  {
    hide First, Filter, Without;
    var i := First(rest, f);
    FilterCons(t, rest, g);
    FirstCons(t, rest, f);
    if i < |rest| {
      var w := Without(rest, i);
      WithoutCons(t, rest, i);
      FilterCons(t, w, g);
      assert ([t] + rest)[i + 1] == rest[i];
    }
  }

  lemma {:induction false} FirstInFilter<T(!new)>(s: seq<T>, f: T -> bool, g: T -> bool)
    requires forall t :: f(t) ==> g(t)
    ensures SameFirst(s, f, g)
  {
    if s != [] {
      var t, rest := s[0], s[1..];
      assert s == [t] + rest;
      if f(t) {
        SameFirstHere(t, rest, f, g);
      } else {
        FirstInFilter(rest, f, g);
        if g(t) {
          SameFirstKept(t, rest, f, g);
        } else {
          SameFirstDropped(t, rest, f, g);
        }
      }
    }
  }

  /** Removing an element that a search passes over does not change what it finds. */
  lemma {:induction false} FirstWithout<T>(s: seq<T>, i: nat, f: T -> bool)
    requires i < |s| && !f(s[i])
    ensures var j, j' := First(s, f), First(Without(s, i), f);
            && (j == |s| <==> j' == |s| - 1)
            && (j < |s| ==> Without(s, i)[j'] == s[j])
  {
    hide First;
    var t, rest := s[0], s[1..];
    assert s == [t] + rest;
    FirstCons(t, rest, f);
    if i == 0 {
      assert Without(s, 0) == rest;
    } else {
      var w := Without(rest, i - 1);
      FirstWithout(rest, i - 1, f);
      WithoutCons(t, rest, i - 1);
      FirstCons(t, w, f);
      assert ([t] + w)[0] == t;
      assert forall k | 0 <= k < |w| :: ([t] + w)[k + 1] == w[k];
    }
  }
}
