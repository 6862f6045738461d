/** Overwrite-oldest ring storage, as used by the RTT window of src/stats.h and by the
    acknowledged-sequence set of src/connection.h. A ring (array, fill count, cursor) represents
    a sliding window: the most recent values, oldest first. */
module Rings {

  /** The window kept by a ring of capacity `n`. */
  function Slide<T>(window: seq<T>, value: T, n: nat): (r: seq<T>)
    requires |window| <= n && n > 0
    ensures |r| <= n
  {
    if |window| < n then window + [value] else window[1..] + [value]
  }

  function SlideAll<T>(values: seq<T>, n: nat): (r: seq<T>)
    requires n > 0
    ensures |r| <= n
    decreases |values|
  {
    if values == [] then []
    else Slide(SlideAll(values[..|values| - 1], n), values[|values| - 1], n)
  }

  function LastOf<T>(values: seq<T>, n: nat): (r: seq<T>) {
    if |values| <= n then values else values[|values| - n..]
  }

  /** Sliding keeps exactly the last `min(|values|, n)` values, in order. */
  lemma {:induction false} SlideAllIsLast<T>(values: seq<T>, n: nat)
    requires n > 0
    ensures SlideAll(values, n) == LastOf(values, n)
    decreases |values|
  {
    if values != [] {
      var front := values[..|values| - 1];
      SlideAllIsLast(front, n);
      assert values == front + [values[|values| - 1]];
    }
  }

  predicate IsRing<T>(data: seq<T>, count: nat, next: nat) {
    && count <= |data|
    && next < |data|
    && (count < |data| ==> next == count)
  }

  /** The window a ring stands for. */
  function Window<T>(data: seq<T>, count: nat, next: nat): (r: seq<T>)
    requires IsRing(data, count, next)
    ensures |r| == count
  {
    if count < |data| then data[..count] else data[next..] + data[..next]
  }

  function NextCursor(next: nat, n: nat): (r: nat)
    requires n > 0
  {
    (next + 1) % n
  }

  lemma CursorWraps(next: nat, n: nat)
    requires next < n
    ensures NextCursor(next, n) == if next + 1 < n then next + 1 else 0
  {}

  lemma PushFilling<T>(data: seq<T>, count: nat, value: T)
    requires count < |data|
    ensures data[count := value][..count + 1] == data[..count] + [value]
  {}

  lemma PushFull<T>(data: seq<T>, next: nat, value: T)
    requires next < |data|
    ensures
      var d := data[next := value];
      && d[next + 1..] + d[..next + 1] == (data[next..] + data[..next])[1..] + [value]
  {
    assert data[next..][1..] == data[next + 1..];
  }

  /** Writing at the cursor and advancing it slides the window. */
  lemma PushSlides<T>(data: seq<T>, count: nat, next: nat, value: T)
    requires IsRing(data, count, next)
    ensures
      var count' := if count < |data| then count + 1 else count;
      var next' := NextCursor(next, |data|);
      && IsRing(data[next := value], count', next')
      && Window(data[next := value], count', next') == Slide(Window(data, count, next), value, |data|)
  {
    var n := |data|;
    var d := data[next := value];
    CursorWraps(next, n);
    hide NextCursor;
    if count < n {
      PushFilling(data, count, value);
      if count + 1 == n {
        assert d[0..] + d[..0] == d == d[..n];
      }
    } else {
      PushFull(data, next, value);
      if next + 1 == n {
        assert d[n..] + d[..n] == d == d[0..] + d[..0];
      }
    }
  }

  /** Scanning the filled part of the storage finds exactly the members of the window. */
  lemma ScanFindsWindow<T>(data: seq<T>, count: nat, next: nat)
    requires IsRing(data, count, next)
    ensures multiset(data[..count]) == multiset(Window(data, count, next))
    ensures forall x :: x in data[..count] <==> x in Window(data, count, next)
  {
    if count == |data| {
      assert data[..count] == data[..next] + data[next..];
    }
    forall x
      ensures x in data[..count] <==> x in Window(data, count, next)
    {
      assert x in data[..count] <==> multiset(data[..count])[x] > 0;
      assert x in Window(data, count, next) <==> multiset(Window(data, count, next))[x] > 0;
    }
  }
}
