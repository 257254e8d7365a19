/** The moving median's sorted index over a circular buffer (mmedian.c). */
module MedianFilter {
  import opened CArith
  import opened CircularBuffer
  import opened Lists
  import opened MovingMedian

  /** An index that is not in use yet is left out of the order. */
  lemma NewIndex(o: seq<int>, n: nat, v: seq<int>, x: int)
    requires Ordered(o, n, -1, v) && n < |v|
    ensures Ordered(o, n + 1, n, v[n := x])
  {
    assert Values(o, v[n := x]) == Values(o, v);
  }

  class Mmedian {
    const len: nat
    /** Indexes of samples, sorted by value. */
    const order: array<int>
    /** Values in a circular buffer. */
    const samples: array<int>
    var cnt: nat
    var index: nat
    /** Every sample since the last reset. */
    ghost var history: seq<int>

    constructor (length: nat)
      requires length >= 1
      ensures Valid() && history == [] && len == length && fresh(order) && fresh(samples)
    {
      len, cnt, index, history := length, 0, 0, [];
      order := new int[length](_ => 0);
      samples := new int[length](_ => 0);
      new;
      assert order[..0] == [];
    }

    /** mmedian_create() */
    static method Create(length: int) returns (m: Mmedian?)
      ensures m == null <==> length < 1
      ensures m != null ==> fresh(m) && m.Valid() && m.history == [] && m.len == length && fresh(m.order) && fresh(m.samples)
    {
      if length < 1 {
        return null;
      }
      m := new Mmedian(length);
    }

    /** The samples kept, oldest first. */
    ghost function Window(): seq<int>
      requires cnt <= samples.Length && index <= samples.Length
      reads this, samples
    {
      WindowOf(samples[..], index, cnt)
    }

    ghost predicate Valid()
      reads this, order, samples
    {
      && order != samples && order.Length == samples.Length == len && cnt <= len && index < len
      && (cnt < len ==> index == cnt)
      && Window() == Last(history, len)
      && Ordered(order[..cnt], cnt, -1, samples[..])
    }

    /** Takes the index of the replaced value out of the order. */
    method RemoveIndex() returns (ghost at: nat)
      requires order != samples && order.Length == len && cnt <= len && index in order[..cnt]
      modifies order
      ensures at < cnt && old(order[at]) == index
      ensures order[..cnt - 1] == Without(old(order[..cnt]), at)
    {
      var i := 0;
      while i < cnt && order[i] != index
        invariant i <= cnt
        invariant index !in order[..i]
      {
        i := i + 1;
      }
      at := i;
      CloseGap(i);
    }

    /** Moves what is behind the place at one place forward. */
    method CloseGap(at: nat)
      requires order != samples && order.Length == len && at < cnt <= len
      modifies order
      ensures order[..cnt - 1] == Without(old(order[..cnt]), at)
    {
      ghost var o := order[..cnt];
      var i := at;
      while i + 1 < cnt
        invariant at <= i < cnt
        invariant forall k | 0 <= k < at :: order[k] == o[k]
        invariant forall k | at <= k < i :: order[k] == o[k + 1]
        invariant forall k | i < k < cnt :: order[k] == o[k]
      {
        order[i] := order[i + 1];
        i := i + 1;
      }
    }

    /** Puts the index of the new value into the order of the other cnt - 1. */
    method InsertIndex() returns (ghost at: nat)
      requires order != samples && order.Length == samples.Length == len && 0 < cnt <= len && index < len
      requires forall k | 0 <= k < cnt - 1 :: 0 <= order[k] < len
      modifies order
      ensures at <= cnt - 1
      ensures order[..cnt] == InsertedAt(old(order[..cnt - 1]), at, index)
      ensures var o := old(order[..cnt - 1]);
              && (at > 0 ==> samples[o[at - 1]] <= samples[index])
              && (at < cnt - 1 ==> samples[index] <= samples[o[at]])
    {
      ghost var o := order[..cnt - 1];
      var i := cnt - 1;
      while i > 0 && samples[order[i - 1]] > samples[index]
        invariant 0 <= i <= cnt - 1
        invariant forall k | 0 <= k < i :: order[k] == o[k]
        invariant forall k | i < k < cnt :: order[k] == o[k - 1]
        invariant i < cnt - 1 ==> samples[index] <= samples[o[i]]
      {
        order[i] := order[i - 1];
        i := i - 1;
      }
      order[i] := index;
      at := i;
    }

    /** mmedian_sample() */
    method Sample(sample: int) returns (r: int)
      requires Valid()
      modifies this, order, samples
      ensures Valid() && history == old(history) + [sample]
      ensures r == MedianOf(Last(history, len))
    {
      Store(sample);
      r := Middle();
    }

    /** Replaces the oldest value, or adds one, and keeps the order. */
    method Store(sample: int)
      requires Valid()
      modifies this, order, samples
      ensures Valid() && history == old(history) + [sample] && cnt > 0
    {
      ghost var v := samples[..];
      NextIndex(index, len);
      NextWindow(history, v, index, cnt, sample);
      Replace(sample);
      Insert();
      index := (1 + index) % len;
      history := history + [sample];
    }

    /** Writes the value, and takes the index it is written to out of the order. */
    method Replace(sample: int)
      requires Valid()
      modifies this`cnt, order, samples
      ensures order.Length == samples.Length == len && 0 < cnt <= len
      ensures cnt == if old(cnt) < len then old(cnt) + 1 else old(cnt)
      ensures samples[..] == old(samples[..])[index := sample]
      ensures Ordered(order[..cnt - 1], cnt, index, samples[..])
    {
      ghost var v, o := samples[..], order[..cnt];
      samples[index] := sample;
      assert samples[..] == v[index := sample];
      if cnt < len {
        NewIndex(o, cnt, v, sample);
        cnt := cnt + 1;
      } else {
        assert index in o;
        ghost var gone := RemoveIndex();
        WithoutOrdered(o, cnt, v, gone, sample);
      }
    }

    method Insert()
      requires order != samples && order.Length == samples.Length == len && 0 < cnt <= len && index < cnt
      requires Ordered(order[..cnt - 1], cnt, index, samples[..])
      modifies order
      ensures Ordered(order[..cnt], cnt, -1, samples[..])
    {
      ghost var o := order[..cnt - 1];
      assert forall k | 0 <= k < cnt - 1 :: order[k] == o[k];
      ghost var at := InsertIndex();
      InsertedOrdered(o, cnt, index, samples[..], at);
    }

    static lemma OrderInRange(o: seq<int>, n: nat, v: seq<int>)
      requires Ordered(o, n, -1, v)
      ensures forall i | 0 <= i < |o| :: 0 <= o[i] < n
    {
    }

    /** The middle value, or the mean of the two in the middle. */
    method Middle() returns (r: int)
      requires Valid() && cnt > 0
      ensures r == MedianOf(Window())
    {
      OrderInRange(order[..cnt], cnt, samples[..]);
      hide Ordered, MedianOf, CDiv;
      WindowPermutes(samples[..], index, cnt);
      MiddleOfOrder(order[..cnt], cnt, samples[..], Window(), cnt / 2);
      if cnt % 2 == 1 {
        r := samples[order[cnt / 2]];
      } else {
        r := CDiv(samples[order[cnt / 2 - 1]] + samples[order[cnt / 2]], 2);
      }
    }

    method Reset()
      requires Valid()
      modifies this
      ensures Valid() && history == []
    {
      cnt, index, history := 0, 0, [];
      assert order[..0] == [];
    }
  }
}
