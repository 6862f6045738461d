/** Per-connection statistics (src/stats.h, src/stats.cpp): the RTT ring buffer, the running
    minimum, maximum and EWMA, and the interpolated percentile. Doubles are exact reals here. */
module Stats {
  import opened Rings

  // ---- Sorting ----

  predicate Sorted(s: seq<int>) {
    forall i, j :: 0 <= i < j < |s| ==> s[i] <= s[j]
  }

  function Insert(s: seq<int>, v: int): (r: seq<int>)
    decreases |s|
  {
    if s == [] || v <= s[0] then [v] + s else [s[0]] + Insert(s[1..], v)
  }

  lemma {:induction false} InsertKeeps(s: seq<int>, v: int)
    ensures multiset(Insert(s, v)) == multiset(s) + multiset{v}
    decreases |s|
  {
    if s == [] || v <= s[0] {
    } else {
      InsertKeeps(s[1..], v);
      assert s == [s[0]] + s[1..];
    }
  }

  lemma {:induction false} InsertSorts(s: seq<int>, v: int)
    requires Sorted(s)
    ensures Sorted(Insert(s, v))
    decreases |s|
  {
    if s == [] || v <= s[0] {
    } else {
      var rest := Insert(s[1..], v);
      InsertSorts(s[1..], v);
      InsertKeeps(s[1..], v);
      forall i | 0 <= i < |rest|
        ensures s[0] <= rest[i]
      {
        assert rest[i] in multiset(rest);
        assert rest[i] == v || rest[i] in s[1..];
      }
    }
  }

  lemma HeadIsLeast(s: seq<int>, t: seq<int>)
    requires Sorted(s) && Sorted(t) && s != [] && t != [] && multiset(s) == multiset(t)
    ensures s[0] <= t[0]
  {
    assert t[0] in multiset(t);
    assert t[0] in s;
  }

  /** Two sorted sequences with the same elements are the same. */
  lemma {:induction false} SortedUnique(s: seq<int>, t: seq<int>)
    requires Sorted(s) && Sorted(t) && multiset(s) == multiset(t)
    ensures s == t
    decreases |s|
  {
    assert |s| == |multiset(s)| && |t| == |multiset(t)|;
    if s != [] {
      HeadIsLeast(s, t);
      HeadIsLeast(t, s);
      TailMultiset(s);
      TailMultiset(t);
      SortedUnique(s[1..], t[1..]);
      assert s == [s[0]] + s[1..] && t == [t[0]] + t[1..];
    }
  }

  lemma TailMultiset(s: seq<int>)
    requires s != []
    ensures multiset(s[1..]) == multiset(s) - multiset{s[0]}
  {
    assert s == [s[0]] + s[1..];
  }

  // ---- The ring buffer ----

  lemma LastSlides<T>(values: seq<T>, value: T, n: nat)
    requires n > 0
    ensures |LastOf(values, n)| <= n
    ensures LastOf(values + [value], n) == Slide(LastOf(values, n), value, n)
  {}

  class RingBuffer {
    var data: array<int>
    var count: nat
    var next: nat
    ghost var pushed: seq<int>

    ghost predicate Valid()
      reads this, data
    {
      && IsRing(data[..], count, next)
      && Window(data[..], count, next) == LastOf(pushed, data.Length)
    }

    constructor (n: nat)
      requires n > 0
      ensures Valid() && fresh(data) && data.Length == n && pushed == []
    {
      data := new int[n](_ => 0);
      count, next := 0, 0;
      pushed := [];
    }

    /** After any pushes the ring holds exactly the last `min(pushes, N)` values. */
    method Push(value: int)
      requires Valid()
      modifies this`count, this`next, this`pushed, data
      ensures Valid() && pushed == old(pushed) + [value]
    {
      PushSlides(data[..], count, next, value);
      LastSlides(pushed, value, data.Length);
      data[next] := value;
      assert data[..] == old(data[..])[next := value];
      next := NextCursor(next, data.Length);
      if count < data.Length {
        count := count + 1;
      }
      pushed := pushed + [value];
    }

    /** The sorted permutation of the window; by `SortedUnique` there is only one. */
    method SortedCopy() returns (s: seq<int>)
      requires Valid()
      ensures Sorted(s) && multiset(s) == multiset(LastOf(pushed, data.Length))
    {
      s := [];
      for i := 0 to count
        invariant Sorted(s) && multiset(s) == multiset(data[..i])
      {
        assert data[..i + 1] == data[..i] + [data[i]];
        InsertKeeps(s, data[i]);
        InsertSorts(s, data[i]);
        s := Insert(s, data[i]);
      }
      ScanFindsWindow(data[..], count, next);
      assert data[..][..count] == data[..count];
    }
  }

  // ---- Connection statistics ----

  const RTT_WINDOW: nat := 256
  const MAX_INT64: int := 0x7FFF_FFFF_FFFF_FFFF
  const EWMA_ALPHA: real := 0.2

  datatype ConnectionStats = ConnectionStats(
    heartbeatsSent: nat,
    heartbeatsAcked: nat,
    missed: nat,
    reconnects: nat,
    lastRttNs: int,
    minRttNs: int,
    maxRttNs: int,
    ewmaRttNs: real,
    rttSamplesNs: seq<int>,
    connectedSinceNs: int)
  {
    function RecordPingSent(): (r: ConnectionStats) {
      this.(heartbeatsSent := heartbeatsSent + 1)
    }

    function RecordMissed(): (r: ConnectionStats) {
      this.(missed := missed + 1)
    }

    function RecordReconnect(): (r: ConnectionStats) {
      this.(reconnects := reconnects + 1)
    }

    function RecordPongReceived(rttNs: int): (r: ConnectionStats) {
      var acked := heartbeatsAcked + 1;
      this.(
        heartbeatsAcked := acked,
        lastRttNs := rttNs,
        minRttNs := if rttNs < minRttNs then rttNs else minRttNs,
        maxRttNs := if rttNs > maxRttNs then rttNs else maxRttNs,
        ewmaRttNs := if acked == 1 then rttNs as real
                     else EWMA_ALPHA * (rttNs as real) + (1.0 - EWMA_ALPHA) * ewmaRttNs,
        rttSamplesNs := if |rttSamplesNs| <= RTT_WINDOW then Slide(rttSamplesNs, rttNs, RTT_WINDOW) else [])
    }
  }

  const NO_STATS := ConnectionStats(0, 0, 0, 0, 0, MAX_INT64, 0, 0.0, [], 0)

  function RecordAll(rtts: seq<int>): (r: ConnectionStats)
    decreases |rtts|
  {
    if rtts == [] then NO_STATS
    else RecordAll(rtts[..|rtts| - 1]).RecordPongReceived(rtts[|rtts| - 1])
  }

  /** The running statistics mean what they say: `minRttNs` and `maxRttNs` are attained bounds of
      the recorded RTTs, the EWMA lies between them, and the window is the last 256 samples. */
  ghost predicate Summarises(st: ConnectionStats, rtts: seq<int>) {
    && st.heartbeatsAcked == |rtts|
    && st.rttSamplesNs == LastOf(rtts, RTT_WINDOW)
    && (forall i :: 0 <= i < |rtts| ==> st.minRttNs <= rtts[i] <= st.maxRttNs)
    && (rtts != [] ==>
          && st.minRttNs in rtts && st.maxRttNs in rtts
          && st.lastRttNs == rtts[|rtts| - 1]
          && st.minRttNs as real <= st.ewmaRttNs <= st.maxRttNs as real)
    && (rtts == [] ==> st.minRttNs == MAX_INT64 && st.maxRttNs == 0)
  }

  lemma EwmaBetween(lo: int, hi: int, v: int, e: real)
    requires lo <= v <= hi && lo as real <= e <= hi as real
    ensures lo as real <= EWMA_ALPHA * (v as real) + (1.0 - EWMA_ALPHA) * e <= hi as real
  {}

  lemma RecordSummarises(st: ConnectionStats, rtts: seq<int>, rtt: int)
    requires Summarises(st, rtts) && 0 <= rtt <= MAX_INT64
    ensures Summarises(st.RecordPongReceived(rtt), rtts + [rtt])
  {
    var st' := st.RecordPongReceived(rtt);
    var all := rtts + [rtt];
    assert all[|rtts|] == rtt;
    assert forall i :: 0 <= i < |rtts| ==> all[i] == rtts[i];
    if rtts != [] {
      EwmaBetween(st'.minRttNs, st'.maxRttNs, rtt, st.ewmaRttNs);
      assert st'.minRttNs == rtt || st'.minRttNs in rtts;
      assert st'.maxRttNs == rtt || st'.maxRttNs in rtts;
    }
  }

  /** min <= EWMA <= max over every run of RTTs in the range the evidence filter lets through. */
  lemma {:induction false} RecordAllSummarises(rtts: seq<int>)
    requires forall i :: 0 <= i < |rtts| ==> 0 <= rtts[i] <= MAX_INT64
    ensures Summarises(RecordAll(rtts), rtts)
    decreases |rtts|
  {
    if rtts != [] {
      var front := rtts[..|rtts| - 1];
      RecordAllSummarises(front);
      assert rtts == front + [rtts[|rtts| - 1]];
      RecordSummarises(RecordAll(front), front, rtts[|rtts| - 1]);
    }
  }

  // ---- What the EWMA weighs ----

  function Power(x: real, n: nat): (r: real) {
    if n == 0 then 1.0 else x * Power(x, n - 1)
  }

  /** The weight of sample `i` of `n`: each later sample takes one fifth and leaves four fifths to what came before;
      the first sample seeds the average and keeps all that is left. */
  function Weight(n: nat, i: nat): (r: real)
    requires i < n
  {
    if i == 0 then Power(0.8, n - 1) else 0.2 * Power(0.8, n - 1 - i)
  }

  /** The first `k` of `n` samples, weighted. */
  function Weighted(rtts: seq<int>, n: nat, k: nat): (r: real)
    requires k <= |rtts| && k <= n
    decreases k
  {
    if k == 0 then 0.0 else Weighted(rtts, n, k - 1) + Weight(n, k - 1) * (rtts[k - 1] as real)
  }

  lemma WeightFades(n: nat, i: nat)
    requires i < n
    ensures Weight(n + 1, i) == 0.8 * Weight(n, i)
  {
    if i > 0 {
      Reorder(0.2, 0.8, Power(0.8, n - 1 - i));
    }
  }

  lemma Reorder(a: real, b: real, x: real)
    ensures a * (b * x) == b * (a * x)
  {}

  /** One more sample fades all earlier ones by four fifths. */
  lemma {:induction false} WeightedFades(rtts: seq<int>, more: seq<int>, n: nat, k: nat)
    requires k <= |rtts| && k <= n && rtts <= more
    ensures Weighted(more, n + 1, k) == 0.8 * Weighted(rtts, n, k)
    decreases k
  {
    hide Weight;
    if k > 0 {
      WeightedFades(rtts, more, n, k - 1);
      WeightFades(n, k - 1);
      Fade(Weighted(rtts, n, k - 1), Weight(n, k - 1), rtts[k - 1] as real);
    }
  }

  lemma Fade(a: real, w: real, v: real)
    ensures 0.8 * a + (0.8 * w) * v == 0.8 * (a + w * v)
  {}

  lemma LastWeight(n: nat)
    ensures Weight(n + 1, n) == if n == 0 then 1.0 else 0.2
  {}

  /** The EWMA is the weighted sum of all RTTs of the run, with those weights and no others. */
  lemma {:induction false} EwmaIsWeighted(rtts: seq<int>)
    requires rtts != []
    ensures RecordAll(rtts).ewmaRttNs == Weighted(rtts, |rtts|, |rtts|)
    ensures RecordAll(rtts).heartbeatsAcked == |rtts|
    decreases |rtts|
  {
    hide Weight;
    var n := |rtts| - 1;
    var front := rtts[..n];
    LastWeight(n);
    if n == 0 {
      assert RecordAll(front) == NO_STATS;
      assert Weighted(rtts, 1, 1) == Weighted(rtts, 1, 0) + Weight(1, 0) * (rtts[0] as real);
    } else {
      EwmaIsWeighted(front);
      WeightedFades(front, rtts, n, n);
    }
  }

  // ---- Percentile ----

  /** Linear interpolation between the two samples around `rank`. */
  function Interpolate(s: seq<int>, rank: real): (r: real)
    requires s != [] && 0.0 <= rank <= (|s| - 1) as real
  {
    var lo := rank.Floor;
    var hi := if lo + 1 < |s| - 1 then lo + 1 else |s| - 1;
    var frac := rank - lo as real;
    (s[lo] as real) * (1.0 - frac) + (s[hi] as real) * frac
  }

  function Rank(s: seq<int>, p: real): (r: real)
    requires s != [] && 0.0 < p < 100.0
    ensures 0.0 <= r <= (|s| - 1) as real
  {
    RankInRange((|s| - 1) as real, p);
    (p / 100.0) * ((|s| - 1) as real)
  }

  lemma RankInRange(n: real, p: real)
    requires n >= 0.0 && 0.0 < p < 100.0
    ensures 0.0 <= (p / 100.0) * n <= n
  {
    var q := p / 100.0;
    ProductNonNegative(q, n);
    ProductNonNegative(1.0 - q, n);
    assert (1.0 - q) * n == n - q * n;
  }

  function Percentile(s: seq<int>, p: real): (r: real) {
    if s == [] then 0.0
    else if p <= 0.0 then s[0] as real
    else if p >= 100.0 then s[|s| - 1] as real
    else Interpolate(s, Rank(s, p))
  }

  lemma ProductNonNegative(x: real, y: real)
    requires 0.0 <= x && 0.0 <= y
    ensures 0.0 <= x * y
  {}

  lemma Convex(a: real, b: real, f: real)
    requires a <= b && 0.0 <= f <= 1.0
    ensures a <= a * (1.0 - f) + b * f <= b
  {
    ProductNonNegative(b - a, f);
    ProductNonNegative(b - a, 1.0 - f);
    assert (b - a) * f == a * (1.0 - f) + b * f - a;
    assert (b - a) * (1.0 - f) == b - (a * (1.0 - f) + b * f);
  }

  lemma ConvexMonotone(a: real, b: real, f: real, g: real)
    requires a <= b && f <= g
    ensures a * (1.0 - f) + b * f <= a * (1.0 - g) + b * g
  {
    ProductNonNegative(b - a, g - f);
    assert (b - a) * (g - f) == a * (1.0 - g) + b * g - (a * (1.0 - f) + b * f);
  }

  lemma FloorInRange(s: seq<int>, rank: real)
    requires s != [] && 0.0 <= rank <= (|s| - 1) as real
    ensures 0 <= rank.Floor <= |s| - 1
    ensures 0.0 <= rank - rank.Floor as real < 1.0
  {}

  lemma FloorMonotone(a: real, b: real)
    requires a <= b
    ensures a.Floor <= b.Floor
  {}

  lemma InterpolateBetween(s: seq<int>, rank: real)
    requires s != [] && Sorted(s) && 0.0 <= rank <= (|s| - 1) as real
    ensures
      var lo := rank.Floor;
      var hi := if lo + 1 < |s| - 1 then lo + 1 else |s| - 1;
      s[lo] as real <= Interpolate(s, rank) <= s[hi] as real
  {
    FloorInRange(s, rank);
    var lo := rank.Floor;
    var hi := if lo + 1 < |s| - 1 then lo + 1 else |s| - 1;
    assert lo <= hi && s[lo] <= s[hi];
    var a, b, f := s[lo] as real, s[hi] as real, rank - lo as real;
    assert Interpolate(s, rank) == a * (1.0 - f) + b * f;
    Convex(a, b, f);
  }

  lemma InterpolateMonotone(s: seq<int>, a: real, b: real)
    requires s != [] && Sorted(s) && 0.0 <= a <= b <= (|s| - 1) as real
    ensures Interpolate(s, a) <= Interpolate(s, b)
  {
    FloorInRange(s, a);
    FloorInRange(s, b);
    var i, j := a.Floor, b.Floor;
    FloorMonotone(a, b);
    if i == j {
      var hi := if i + 1 < |s| - 1 then i + 1 else |s| - 1;
      ConvexMonotone(s[i] as real, s[hi] as real, a - i as real, b - i as real);
    } else {
      assert i < j;
      InterpolateBetween(s, a);
      InterpolateBetween(s, b);
    }
  }

  lemma RankMonotone(s: seq<int>, p: real, q: real)
    requires s != [] && 0.0 < p <= q < 100.0
    ensures Rank(s, p) <= Rank(s, q)
  {
    var n := (|s| - 1) as real;
    ProductNonNegative(q / 100.0 - p / 100.0, n);
    assert (q / 100.0 - p / 100.0) * n == (q / 100.0) * n - (p / 100.0) * n;
  }

  lemma PercentileInRange(s: seq<int>, p: real)
    requires s != [] && Sorted(s)
    ensures s[0] as real <= Percentile(s, p) <= s[|s| - 1] as real
  {
    hide Rank;
    if 0.0 < p < 100.0 {
      FloorInRange(s, Rank(s, p));
      InterpolateBetween(s, Rank(s, p));
    }
  }

  /** Over a sorted window, `Percentile` is monotone in `p` and never leaves the sample range; the
      ends of the range are reached at 0 and 100. */
  lemma PercentileMonotone(s: seq<int>, p: real, q: real)
    requires s != [] && Sorted(s) && p <= q
    ensures s[0] as real <= Percentile(s, p) <= Percentile(s, q) <= s[|s| - 1] as real
    ensures Percentile(s, 0.0) == s[0] as real && Percentile(s, 100.0) == s[|s| - 1] as real
  {
    hide Rank;
    hide Interpolate;
    PercentileInRange(s, p);
    PercentileInRange(s, q);
    if 0.0 < p && q < 100.0 {
      RankMonotone(s, p, q);
      InterpolateMonotone(s, Rank(s, p), Rank(s, q));
    }
  }

  lemma FloorOf(i: nat, f: real)
    requires 0.0 <= f < 1.0
    ensures (i as real + f).Floor == i
  {}

  lemma PositiveFactor(q: real, n: real)
    requires n > 0.0 && q * n > 0.0
    ensures q > 0.0
  {}

  lemma RankOf(n: real, x: real)
    requires n > 0.0 && 0.0 < x < n
    ensures 0.0 < 100.0 * x / n < 100.0
    ensures (100.0 * x / n / 100.0) * n == x
  {
    var p := 100.0 * x / n;
    assert p * n == 100.0 * x;
    assert (100.0 - p) * n == 100.0 * n - p * n;
    PositiveFactor(p, n);
    PositiveFactor(100.0 - p, n);
    assert (p / 100.0) * n == p * n / 100.0;
  }

  /** Between two neighbouring samples the percentile runs along the straight line from one to the other: at the
      fraction `f` of the way from sample `i` to the next, it is that fraction of the way between their values. */
  lemma PercentileBetween(s: seq<int>, i: nat, f: real)
    requires |s| > 1 && i < |s| - 1 && 0.0 <= f < 1.0
    ensures
      var n, a, b := (|s| - 1) as real, s[i] as real, s[i + 1] as real;
      Percentile(s, 100.0 * (i as real + f) / n) == a + f * (b - a)
  {
    var n, x := (|s| - 1) as real, i as real + f;
    FloorOf(i, f);
    if x == 0.0 {
      assert i == 0 && f == 0.0;
    } else {
      RankOf(n, x);
      var p := 100.0 * x / n;
      assert Rank(s, p) == x;
      var a, b := s[i] as real, s[i + 1] as real;
      assert Interpolate(s, x) == a * (1.0 - f) + b * f;
      assert a * (1.0 - f) + b * f == a + f * (b - a);
    }
  }
}
