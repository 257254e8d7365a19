/** The circular buffer of the filters (mmedian.c, mave.c): its values and the
    history they are the end of. */
module CircularBuffer {

  /** The last len samples, or all if there are fewer. */
  function Last(history: seq<int>, len: nat): seq<int> {
    if |history| <= len then history else history[|history| - len..]
  }

  lemma NextIndex(i: nat, len: nat)
    requires i < len
    ensures (1 + i) % len == if i + 1 < len then i + 1 else 0
  {
  }

  /** The window of a buffer that is filled up to cnt, whose oldest value is at
      index once it is full. */
  function WindowOf(v: seq<int>, index: nat, cnt: nat): seq<int>
    requires cnt <= |v| && index <= |v|
  {
    if cnt < |v| then v[..cnt] else v[index..] + v[..index]
  }

  lemma WindowPermutes(v: seq<int>, index: nat, cnt: nat)
    requires cnt <= |v| && index <= |v|
    ensures multiset(WindowOf(v, index, cnt)) == multiset(v[..cnt]) && |WindowOf(v, index, cnt)| == cnt
  {
    if cnt == |v| {
      assert v[..cnt] == v == v[..index] + v[index..];
    }
  }

  /** Writing at index and moving on moves the window by one. */
  lemma NextWindow(history: seq<int>, v: seq<int>, index: nat, cnt: nat, x: int)
    requires cnt <= |v| && index < |v| && (cnt < |v| ==> index == cnt)
    requires WindowOf(v, index, cnt) == Last(history, |v|)
    ensures var next := if index + 1 < |v| then index + 1 else 0;
            var cnt' := if cnt < |v| then cnt + 1 else cnt;
            && WindowOf(v[index := x], next, cnt') == Last(history + [x], |v|)
            && (cnt' < |v| ==> next == cnt')
  {
    var v' := v[index := x];
    if cnt < |v| {
      assert v'[..cnt + 1] == v[..cnt] + [x];
      assert cnt + 1 == |v| ==> v'[0..] + v'[..0] == v'[..cnt + 1];
    } else if index + 1 < |v| {
      assert v'[index + 1..] + v'[..index + 1] == (v[index..] + v[..index])[1..] + [x];
    } else {
      assert v'[0..] + v'[..0] == (v[index..] + v[..index])[1..] + [x];
    }
  }
}
