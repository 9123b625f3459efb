/** Statistics over the samples pushed so far, kept up one sample at a time. Doubles are reals;
    an instance with a bucket interval holds whole numbers. */
module Statistics {

  // max and min mean nothing before the first push
  datatype Stats = Stats(mean: real, max: real, min: real, count: nat, interval: int, buckets: map<int, nat>)

  function Empty(interval: int): Stats {
    Stats(0.0, 0.0, 0.0, 0, interval, map[])
  }

  // C++ division of long ints
  function Quotient(a: int, b: int): int
    requires b != 0
  {
    if a >= 0 then a / b else -((-a) / b)
  }

  /** The division truncates: what is left over is smaller than the divisor and has the sign of the
      dividend. */
  lemma QuotientTruncates(a: int, b: int)
    requires b != 0
    ensures var left := a - Quotient(a, b) * b;
            && (if b > 0 then -b < left < b else b < left < -b)
            && (a >= 0 ==> left >= 0) && (a <= 0 ==> left <= 0)
  {
    if a >= 0 {
      assert a == (a / b) * b + a % b;
    } else {
      assert -a == ((-a) / b) * b + (-a) % b;
      assert -((-a) / b) * b == -(((-a) / b) * b);
    }
  }

  function Bucket(x: real, interval: int): int
    requires interval != 0
  {
    Quotient(x.Floor, interval)
  }

  function Pushed(s: Stats, x: real): Stats {
    var n := s.count + 1;
    s.(max := if s.count == 0 || s.max < x then x else s.max,
       min := if s.count == 0 || s.min > x then x else s.min,
       count := n,
       mean := s.mean + (x - s.mean) / n as real,
       buckets := if s.interval == 0 then s.buckets
                  else var k := Bucket(x, s.interval);
                       s.buckets[k := (if k in s.buckets then s.buckets[k] else 0) + 1])
  }

  function PushAll(interval: int, xs: seq<real>): Stats {
    if xs == [] then Empty(interval) else Pushed(PushAll(interval, xs[..|xs| - 1]), xs[|xs| - 1])
  }

  // ---------- the simple definitions ----------

  function Sum(xs: seq<real>): real {
    if xs == [] then 0.0 else Sum(xs[..|xs| - 1]) + xs[|xs| - 1]
  }

  function InBucket(xs: seq<real>, interval: int, k: int): nat
    requires interval != 0
  {
    if xs == [] then 0
    else InBucket(xs[..|xs| - 1], interval, k) + if Bucket(xs[|xs| - 1], interval) == k then 1 else 0
  }

  function At(m: map<int, nat>, k: int): nat {
    if k in m then m[k] else 0
  }

  ghost function Total(m: map<int, nat>): nat
    decreases |m.Keys|
  {
    if !exists k :: k in m then 0
    else
      var k :| k in m;
      m[k] + Total(m - {k})
  }

  lemma {:induction false} TotalSplit(m: map<int, nat>, k: int)
    requires k in m
    ensures Total(m) == m[k] + Total(m - {k})
    decreases |m.Keys|
  {
    var first :| first in m && Total(m) == m[first] + Total(m - {first});
    if first != k {
      TotalSplit(m - {first}, k);
      TotalSplit(m - {k}, first);
      assert m - {first} - {k} == m - {k} - {first};
    }
  }

  lemma TotalIncremented(m: map<int, nat>, k: int)
    ensures Total(m[k := At(m, k) + 1]) == Total(m) + 1
  {
    var m' := m[k := At(m, k) + 1];
    TotalSplit(m', k);
    assert m' - {k} == m - {k};
    if k in m {
      TotalSplit(m, k);
    } else {
      assert m - {k} == m;
    }
  }

  ghost predicate Extremes(s: Stats, xs: seq<real>) {
    s.max in xs && s.min in xs && forall x :: x in xs ==> s.min <= x <= s.max
  }

  function Scaled(x: real, n: nat): real {
    x * n as real
  }

  function MeanTimesCount(s: Stats): real {
    Scaled(s.mean, s.count)
  }

  lemma Positive(x: real, n: real)
    requires x > 0.0 && n > 0.0
    ensures x * n > 0.0
  {
  }

  lemma ScaledStrict(x: real, y: real, n: nat)
    requires x < y && n >= 1
    ensures Scaled(x, n) < Scaled(y, n)
  {
    Positive(y - x, n as real);
    assert y * n as real == x * n as real + (y - x) * n as real;
  }

  lemma ScaledMore(x: real, m: nat, n: nat)
    ensures Scaled(x, m + n) == Scaled(x, m) + Scaled(x, n)
  {
  }

  lemma MeanPushed(s: Stats, x: real)
    ensures Pushed(s, x).count == s.count + 1 && Pushed(s, x).interval == s.interval
    ensures MeanTimesCount(Pushed(s, x)) == MeanTimesCount(s) + x
  {
    hide Bucket;
    var n := (s.count + 1) as real;
    var d := (x - s.mean) / n;
    assert d * n == x - s.mean;
    assert (s.mean + d) * n == s.mean * n + d * n;
  }

  lemma {:induction false} MeanRefines(interval: int, xs: seq<real>)
    ensures PushAll(interval, xs).count == |xs| && PushAll(interval, xs).interval == interval
    ensures MeanTimesCount(PushAll(interval, xs)) == Sum(xs)
    decreases |xs|
  {
    if xs == [] {
      assert MeanTimesCount(Empty(interval)) == 0.0;
    } else {
      hide Pushed, MeanTimesCount;
      MeanRefines(interval, xs[..|xs| - 1]);
      MeanPushed(PushAll(interval, xs[..|xs| - 1]), xs[|xs| - 1]);
    }
  }

  lemma {:induction false} ExtremesRefine(interval: int, xs: seq<real>)
    requires xs != []
    ensures Extremes(PushAll(interval, xs), xs)
    decreases |xs|
  {
    hide Bucket;
    var before := xs[..|xs| - 1];
    assert xs == before + [xs[|xs| - 1]];
    MeanRefines(interval, before);
    if before != [] {
      ExtremesRefine(interval, before);
    }
  }

  lemma {:induction false} BucketsRefine(interval: int, xs: seq<real>, k: int)
    requires interval != 0
    ensures PushAll(interval, xs).interval == interval
    ensures At(PushAll(interval, xs).buckets, k) == InBucket(xs, interval, k)
    decreases |xs|
  {
    if xs != [] {
      hide Bucket;
      BucketsRefine(interval, xs[..|xs| - 1], k);
    }
  }

  lemma {:induction false} TotalRefines(interval: int, xs: seq<real>)
    requires interval != 0
    ensures PushAll(interval, xs).interval == interval
    ensures Total(PushAll(interval, xs).buckets) == |xs|
    decreases |xs|
  {
    if xs != [] {
      hide Bucket;
      TotalRefines(interval, xs[..|xs| - 1]);
      TotalIncremented(PushAll(interval, xs[..|xs| - 1]).buckets, Bucket(xs[|xs| - 1], interval));
    }
  }

  /** The incremental form agrees with the definitions over the list of samples: the mean times
      the count is the sum, max and min are the extremes, each bucket holds exactly the samples
      whose quotient names it, and the buckets add up to the count. */
  lemma PushAllRefines(interval: int, xs: seq<real>)
    ensures var s := PushAll(interval, xs); s.count == |xs| && MeanTimesCount(s) == Sum(xs)
    ensures xs != [] ==> Extremes(PushAll(interval, xs), xs)
    ensures interval != 0 ==> forall k :: At(PushAll(interval, xs).buckets, k) == InBucket(xs, interval, k)
    ensures interval != 0 ==> Total(PushAll(interval, xs).buckets) == |xs|
  {
    MeanRefines(interval, xs);
    if xs != [] {
      ExtremesRefine(interval, xs);
    }
    if interval != 0 {
      hide PushAll;
      TotalRefines(interval, xs);
      forall k ensures At(PushAll(interval, xs).buckets, k) == InBucket(xs, interval, k) {
        BucketsRefine(interval, xs, k);
      }
    }
  }

  lemma PushAllAppend(interval: int, xs: seq<real>, x: real)
    ensures PushAll(interval, xs + [x]) == Pushed(PushAll(interval, xs), x)
  {
    assert (xs + [x])[..|xs|] == xs;
  }

  lemma SameMean(s: Stats, t: Stats)
    requires s.count == t.count >= 1 && MeanTimesCount(s) == MeanTimesCount(t)
    ensures s.mean == t.mean
  {
    hide Scaled;
    if s.mean < t.mean {
      ScaledStrict(s.mean, t.mean, s.count);
    } else if t.mean < s.mean {
      ScaledStrict(t.mean, s.mean, s.count);
    }
  }

  lemma BucketsCommute(s: Stats, x: real, y: real)
    ensures Pushed(Pushed(s, x), y).buckets == Pushed(Pushed(s, y), x).buckets
  {
    hide Bucket;
  }

  /** Two pushes may be exchanged. */
  lemma PushesCommute(s: Stats, x: real, y: real)
    ensures Pushed(Pushed(s, x), y) == Pushed(Pushed(s, y), x)
  {
    BucketsCommute(s, x, y);
    var xy, yx := Pushed(Pushed(s, x), y), Pushed(Pushed(s, y), x);
    assert xy.max == yx.max && xy.min == yx.min && xy.count == yx.count == s.count + 2 by {
      hide Bucket;
    }
    assert xy.mean == yx.mean by {
      hide Pushed, MeanTimesCount;
      MeanPushed(s, x);
      MeanPushed(Pushed(s, x), y);
      MeanPushed(s, y);
      MeanPushed(Pushed(s, y), x);
      SameMean(xy, yx);
    }
    assert xy.interval == yx.interval by {
      hide Bucket;
    }
  }

  lemma {:induction false} PushedLast(interval: int, xs: seq<real>, i: nat)
    requires i < |xs|
    ensures PushAll(interval, xs) == Pushed(PushAll(interval, xs[..i] + xs[i + 1..]), xs[i])
    decreases |xs|
  {
    hide Pushed;
    var n := |xs| - 1;
    if i == n {
      assert xs[..i] + xs[i + 1..] == xs[..n];
    } else {
      var rest := xs[..n][..i] + xs[..n][i + 1..];
      PushedLast(interval, xs[..n], i);
      PushesCommute(PushAll(interval, rest), xs[i], xs[n]);
      PushAllAppend(interval, rest, xs[n]);
      assert rest + [xs[n]] == xs[..i] + xs[i + 1..];
    }
  }

  lemma WithoutOne(xs: seq<real>, i: nat)
    requires i < |xs|
    ensures multiset(xs[..i] + xs[i + 1..]) == multiset(xs) - multiset{xs[i]}
  {
    assert xs == xs[..i] + [xs[i]] + xs[i + 1..];
  }

  /** The statistics do not depend on the order of the samples. */
  lemma {:induction false} OrderDoesNotMatter(interval: int, xs: seq<real>, ys: seq<real>)
    requires multiset(xs) == multiset(ys)
    ensures PushAll(interval, xs) == PushAll(interval, ys)
    decreases |xs|
  {
    hide Pushed, PushAll;
    if xs == [] {
      assert |multiset(ys)| == |ys|;
    } else {
      var n := |xs| - 1;
      assert xs[n] in multiset(ys);
      var i :| 0 <= i < |ys| && ys[i] == xs[n];
      WithoutOne(xs, n);
      WithoutOne(ys, i);
      PushedLast(interval, xs, n);
      PushedLast(interval, ys, i);
      OrderDoesNotMatter(interval, xs[..n] + xs[n + 1..], ys[..i] + ys[i + 1..]);
    }
  }

  lemma {:induction false} SumBetween(xs: seq<real>, low: real, high: real)
    requires forall x :: x in xs ==> low <= x <= high
    ensures Scaled(low, |xs|) <= Sum(xs) <= Scaled(high, |xs|)
    decreases |xs|
  {
    if xs != [] {
      hide Scaled;
      var before := xs[..|xs| - 1];
      assert forall x :: x in before ==> x in xs;
      SumBetween(before, low, high);
      ScaledOnce(low, |before|);
      ScaledOnce(high, |before|);
      assert xs[|xs| - 1] in xs;
    }
  }

  lemma ScaledOnce(x: real, n: nat)
    ensures Scaled(x, n + 1) == Scaled(x, n) + x
  {
  }

  lemma MeanWithin(s: Stats, low: real, high: real)
    requires s.count >= 1
    requires Scaled(low, s.count) <= MeanTimesCount(s) <= Scaled(high, s.count)
    ensures low <= s.mean <= high
  {
    hide Scaled;
    if s.mean < low {
      ScaledStrict(s.mean, low, s.count);
    } else if high < s.mean {
      ScaledStrict(high, s.mean, s.count);
    }
  }

  /** The mean lies between any bounds on the samples. */
  lemma MeanBetween(interval: int, xs: seq<real>, low: real, high: real)
    requires xs != []
    requires forall x :: x in xs ==> low <= x <= high
    ensures low <= PushAll(interval, xs).mean <= high
  {
    hide PushAll, MeanTimesCount, Scaled;
    MeanRefines(interval, xs);
    SumBetween(xs, low, high);
    MeanWithin(PushAll(interval, xs), low, high);
  }

  lemma {:induction false} SumConcat(xs: seq<real>, ys: seq<real>)
    ensures Sum(xs + ys) == Sum(xs) + Sum(ys)
    decreases |ys|
  {
    if ys == [] {
      assert xs + ys == xs;
    } else {
      assert (xs + ys)[..|xs + ys| - 1] == xs + ys[..|ys| - 1];
      SumConcat(xs, ys[..|ys| - 1]);
    }
  }

  // ---------- the object ----------

  class StatisticsObject {
    var mean: real
    var max: real
    var min: real
    var count: nat
    const interval: int
    var frequencyMap: map<int, nat>

    function Value(): Stats
      reads this
    {
      Stats(mean, max, min, count, interval, frequencyMap)
    }

    constructor (interval: int)
      ensures Value() == Empty(interval) && this.interval == interval
    {
      mean, max, min, count := 0.0, 0.0, 0.0, 0;
      this.interval, frequencyMap := interval, map[];
    }

    method Push(element: real)
      modifies this
      ensures Value() == Pushed(old(Value()), element)
    {
      if count == 0 {
        max, min := element, element;
      } else {
        if max < element {
          max := element;
        }
        if min > element {
          min := element;
        }
      }
      count := count + 1;
      mean := mean + (element - mean) / count as real;
      if interval != 0 {
        var key := Bucket(element, interval);
        frequencyMap := frequencyMap[key := (if key in frequencyMap then frequencyMap[key] else 0) + 1];
      }
    }
  }
}
