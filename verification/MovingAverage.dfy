/** The moving average (mave.c). */
module MovingAverage {
  import opened CArith
  import opened CircularBuffer

  function Sum(s: seq<int>): int {
    if s == [] then 0 else Sum(s[..|s| - 1]) + s[|s| - 1]
  }

  /** The mean, rounded towards zero. */
  function Average(w: seq<int>): int
    requires w != []
  {
    CDiv(Sum(w), |w|)
  }

  lemma {:induction false} SumConcat(a: seq<int>, b: seq<int>)
    ensures Sum(a + b) == Sum(a) + Sum(b)
  {
    if b == [] {
      assert a + b == a;
    } else {
      var n := |b| - 1;
      assert (a + b)[..|a + b| - 1] == a + b[..n];
      SumConcat(a, b[..n]);
    }
  }

  lemma SumOne(x: int)
    ensures Sum([x]) == x
  {
    assert [x][..0] == [];
  }

  lemma SumUpdate(v: seq<int>, i: nat, x: int)
    requires i < |v|
    ensures Sum(v[i := x]) == Sum(v) - v[i] + x
  {
    SumOne(v[i]);
    SumOne(x);
    hide Sum;
    assert v == v[..i] + ([v[i]] + v[i + 1..]) && v[i := x] == v[..i] + ([x] + v[i + 1..]);
    SumConcat(v[..i], [v[i]] + v[i + 1..]);
    SumConcat(v[..i], [x] + v[i + 1..]);
    SumConcat([v[i]], v[i + 1..]);
    SumConcat([x], v[i + 1..]);
  }

  lemma {:induction false} SumZero(v: seq<int>)
    requires forall i | 0 <= i < |v| :: v[i] == 0
    ensures Sum(v) == 0
  {
    if v != [] {
      SumZero(v[..|v| - 1]);
    }
  }

  lemma SumUsed(v: seq<int>, cnt: nat)
    requires cnt <= |v| && (forall i | cnt <= i < |v| :: v[i] == 0)
    ensures Sum(v[..cnt]) == Sum(v)
  {
    hide Sum;
    var used, unused := v[..cnt], v[cnt..];
    SumZero(unused);
    SumConcat(used, unused);
    assert v == used + unused;
  }

  lemma SumRotated(v: seq<int>, index: nat)
    requires index <= |v|
    ensures Sum(v[index..] + v[..index]) == Sum(v)
  {
    hide Sum;
    var newer, older := v[..index], v[index..];
    SumConcat(newer, older);
    SumConcat(older, newer);
    assert v == newer + older;
  }

  /** Slots not in use yet hold zeros, so the sum of the buffer is that of the window. */
  lemma WindowSum(v: seq<int>, index: nat, cnt: nat)
    requires cnt <= |v| && index <= |v| && (forall i | cnt <= i < |v| :: v[i] == 0)
    ensures Sum(WindowOf(v, index, cnt)) == Sum(v)
  {
    hide Sum;
    if cnt < |v| {
      SumUsed(v, cnt);
    } else {
      SumRotated(v, index);
    }
  }

  /** The state of the buffer, with the sum. */
  ghost predicate Averaging(history: seq<int>, v: seq<int>, index: nat, cnt: nat, sum: int) {
    && cnt <= |v| && index < |v|
    && (cnt < |v| ==> index == cnt)
    && (forall i | cnt <= i < |v| :: v[i] == 0)
    && sum == Sum(v)
    && WindowOf(v, index, cnt) == Last(history, |v|)
  }

  lemma NextAverage(history: seq<int>, v: seq<int>, index: nat, cnt: nat, sum: int, x: int)
    requires Averaging(history, v, index, cnt, sum)
    ensures var next := if index + 1 < |v| then index + 1 else 0;
            var cnt' := if cnt < |v| then cnt + 1 else cnt;
            Averaging(history + [x], v[index := x], next, cnt', sum - v[index] + x)
  {
    SumUpdate(v, index, x);
    NextWindow(history, v, index, cnt, x);
  }

  lemma AverageIs(history: seq<int>, v: seq<int>, index: nat, cnt: nat, sum: int)
    requires Averaging(history, v, index, cnt, sum) && cnt > 0
    ensures sum == Sum(Last(history, |v|)) && |Last(history, |v|)| == cnt
  {
    WindowSum(v, index, cnt);
  }

  class Mave {
    const len: nat
    const val: array<int>
    var cnt: nat
    var index: nat
    var sum: int
    /** Every sample since the last reset. */
    ghost var history: seq<int>

    constructor (length: nat)
      requires length >= 1
      ensures Valid() && history == [] && len == length && fresh(val)
    {
      len, cnt, index, sum, history := length, 0, 0, 0, [];
      val := new int[length](_ => 0);
      new;
      SumZero(val[..]);
    }

    ghost predicate Valid()
      reads this, val
    {
      val.Length == len && Averaging(history, val[..], index, cnt, sum)
    }

    /** mave_accumulate() */
    method Accumulate(x: int) returns (r: int)
      requires Valid()
      modifies this, val
      ensures Valid() && history == old(history) + [x]
      ensures sum == Sum(Last(history, len)) && r == Average(Last(history, len))
    {
      ghost var v := val[..];
      NextAverage(history, v, index, cnt, sum, x);
      NextIndex(index, len);
      sum := sum - val[index];
      val[index] := x;
      assert val[..] == v[index := x];
      index := (1 + index) % len;
      sum := sum + x;
      if cnt < len {
        cnt := cnt + 1;
      }
      history := history + [x];
      AverageIs(history, val[..], index, cnt, sum);
      r := CDiv(sum, cnt);
    }

    /** mave_reset() */
    method Reset()
      requires Valid()
      modifies this, val
      ensures Valid() && history == []
    {
      cnt, index, sum, history := 0, 0, 0, [];
      forall i | 0 <= i < len {
        val[i] := 0;
      }
      SumZero(val[..]);
    }
  }
}
