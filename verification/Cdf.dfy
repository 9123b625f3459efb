/** The cumulative distribution printed for a latency: thirty rows read off the bucket counts. */
module Cdf {
  import opened Statistics
  import opened NodeLatency
  import opened GeneralLatency

  const ROWS: nat := 30

  /** What the division prints: nothing is defined when there are no samples. */
  datatype Printed = Number(value: real) | NotANumber

  ghost predicate Whole(xs: seq<real>) {
    forall x :: x in xs ==> x == x.Floor as real
  }

  /** The samples below row + 1 intervals, and above minus one: a negative sample smaller than
      the interval is rounded into the first bucket. */
  function Within(xs: seq<real>, interval: int, row: int): nat {
    if xs == [] then 0
    else
      var x := xs[|xs| - 1];
      Within(xs[..|xs| - 1], interval, row)
        + if -interval as real < x < ((row + 1) * interval) as real then 1 else 0
  }

  lemma Multiples(a: int, b: int, n: int)
    requires a <= b && n > 0
    ensures a * n <= b * n
  {
  }

  lemma QuotientWithin(x: int, q: int, n: int, k: int)
    requires n > 0 && q * n <= x < (q + 1) * n
    ensures q <= k <==> x < (k + 1) * n
  {
    if q <= k {
      Multiples(q + 1, k + 1, n);
    } else {
      Multiples(k + 1, q, n);
    }
  }

  lemma DivisionBounds(x: int, n: int)
    requires x >= 0 && n > 0
    ensures x / n >= 0
    ensures (x / n) * n <= x < (x / n + 1) * n
  {
    assert x == (x / n) * n + x % n;
  }

  lemma BucketMeaning(x: int, interval: int, k: nat)
    requires interval > 0
    ensures 0 <= Quotient(x, interval) <= k <==> -interval < x < (k + 1) * interval
  {
    Multiples(1, k + 1, interval);
    if x >= 0 {
      DivisionBounds(x, interval);
      QuotientWithin(x, x / interval, interval, k);
    } else {
      DivisionBounds(-x, interval);
      QuotientWithin(-x, (-x) / interval, interval, 0);
    }
  }

  lemma {:induction false} RowAdded(xs: seq<real>, interval: int, row: nat)
    requires interval > 0 && Whole(xs)
    ensures row == 0 ==> Within(xs, interval, 0) == InBucket(xs, interval, 0)
    ensures row > 0 ==> Within(xs, interval, row) == Within(xs, interval, row - 1) + InBucket(xs, interval, row)
  {
    if xs != [] {
      hide Quotient;
      var before, x := xs[..|xs| - 1], xs[|xs| - 1];
      assert x in xs && forall y :: y in before ==> y in xs;
      RowAdded(before, interval, row);
      BucketMeaning(x.Floor, interval, row);
      if row > 0 {
        BucketMeaning(x.Floor, interval, row - 1);
      }
    }
  }

  function Share(a: nat, n: nat): real
    requires n > 0
  {
    a as real / n as real
  }

  ghost function Fraction(xs: seq<real>, interval: int, row: nat): real
    requires xs != []
  {
    Share(Within(xs, interval, row), |xs|)
  }

  lemma {:induction false} WithinGrows(xs: seq<real>, interval: int, row: nat)
    requires interval > 0
    ensures Within(xs, interval, row) <= Within(xs, interval, row + 1) <= |xs|
  {
    if xs != [] {
      WithinGrows(xs[..|xs| - 1], interval, row);
    }
  }

  lemma {:induction false} AllWithin(xs: seq<real>, interval: int, row: nat)
    ensures Within(xs, interval, row) <= |xs|
    ensures Within(xs, interval, row) == |xs|
       <==> forall x :: x in xs ==> -interval as real < x < ((row + 1) * interval) as real
  {
    if xs != [] {
      var before, x := xs[..|xs| - 1], xs[|xs| - 1];
      assert x in xs && forall y :: y in xs <==> y in before || y == x;
      AllWithin(before, interval, row);
    }
  }

  lemma ShareTimes(a: nat, n: nat)
    requires n > 0
    ensures Share(a, n) * n as real == a as real
  {
  }

  lemma SharesOrdered(a: nat, b: nat, n: nat)
    requires n > 0 && a <= b
    ensures Share(a, n) <= Share(b, n)
  {
    ShareTimes(a, n);
    ShareTimes(b, n);
    var x, y := Share(a, n), Share(b, n);
    hide Share;
    if y < x {
      ScaledStrict(y, x, n);
    }
  }

  lemma ShareEnds(n: nat)
    requires n > 0
    ensures Share(0, n) == 0.0 && Share(n, n) == 1.0
  {
  }

  lemma Divided(a: nat, b: nat, n: nat)
    requires n > 0 && a <= b <= n
    ensures 0.0 <= Share(a, n) <= Share(b, n) <= 1.0
    ensures Share(a, n) == 1.0 <==> a == n
  {
    hide Share;
    SharesOrdered(0, a, n);
    SharesOrdered(a, b, n);
    SharesOrdered(b, n, n);
    ShareEnds(n);
    ShareTimes(a, n);
  }

  /** The printed values never fall, stay between 0 and 1, and reach 1 exactly when every sample
      lies below the bound of the row and above minus one interval. */
  lemma Distribution(xs: seq<real>, interval: int, row: nat)
    requires interval > 0 && xs != []
    ensures 0.0 <= Fraction(xs, interval, row) <= Fraction(xs, interval, row + 1) <= 1.0
    ensures Fraction(xs, interval, row) == 1.0
       <==> forall x :: x in xs ==> -interval as real < x < ((row + 1) * interval) as real
  {
    hide Within, Share;
    WithinGrows(xs, interval, row);
    AllWithin(xs, interval, row);
    Divided(Within(xs, interval, row), Within(xs, interval, row + 1), |xs|);
  }

  function Below(xs: seq<real>, bound: int): nat {
    if xs == [] then 0 else Below(xs[..|xs| - 1], bound) + if xs[|xs| - 1] < bound as real then 1 else 0
  }

  /** Samples at or below minus one interval are in no row. */
  function Lost(xs: seq<real>, interval: int): nat {
    if xs == [] then 0
    else Lost(xs[..|xs| - 1], interval) + if xs[|xs| - 1] <= -interval as real then 1 else 0
  }

  lemma {:induction false} BelowSplit(xs: seq<real>, interval: int, row: nat)
    requires interval > 0
    ensures Below(xs, (row + 1) * interval) == Within(xs, interval, row) + Lost(xs, interval)
  {
    if xs != [] {
      Multiples(1, row + 1, interval);
      BelowSplit(xs[..|xs| - 1], interval, row);
    }
  }

  lemma {:induction false} NothingLostIff(xs: seq<real>, interval: int)
    ensures Lost(xs, interval) == 0 <==> forall x :: x in xs ==> x > -interval as real
  {
    if xs != [] {
      var before, x := xs[..|xs| - 1], xs[|xs| - 1];
      assert x in xs && forall y :: y in xs <==> y in before || y == x;
      NothingLostIff(before, interval);
    }
  }

  /** The rows count the samples below their bounds exactly when no sample is as low as minus one
      interval. */
  lemma RowsCountBelowIff(xs: seq<real>, interval: int)
    requires interval > 0
    ensures (forall row: nat :: Within(xs, interval, row) == Below(xs, (row + 1) * interval))
       <==> forall x :: x in xs ==> x > -interval as real
  {
    hide Within, Below, Lost;
    NothingLostIff(xs, interval);
    BelowSplit(xs, interval, 0);
    assert Within(xs, interval, 0) == Below(xs, (0 + 1) * interval) <==> Lost(xs, interval) == 0;
    forall row: nat ensures Below(xs, (row + 1) * interval) == Within(xs, interval, row) + Lost(xs, interval) {
      BelowSplit(xs, interval, row);
    }
  }

  /** A clock set back by ten units: below every bound, and in no row of five units. */
  lemma SetBackIsLost(row: nat)
    ensures Below([-10.0], (row + 1) * 5) == 1 && Within([-10.0], 5, row) == 0
  {
    assert [-10.0][..0] == [];
  }

  /** What the loop has accumulated after a row. */
  function Accumulated(s: Stats, row: nat): nat {
    At(s.buckets, row) + if row == 0 then 0 else Accumulated(s, row - 1)
  }

  function RowOf(s: Stats, row: nat): Printed {
    if s.count == 0 then NotANumber else Number(Share(Accumulated(s, row), s.count))
  }

  /** The loop over the rows. */
  method PrintRows(s: Stats) returns (rows: seq<Printed>)
    ensures |rows| == 30 && forall i :: 0 <= i < 30 ==> rows[i] == RowOf(s, i)
  {
    rows := [];
    var total, accumulated := s.count, 0;
    for i := 0 to ROWS
      invariant |rows| == i && forall j :: 0 <= j < i ==> rows[j] == RowOf(s, j)
      invariant accumulated == if i == 0 then 0 else Accumulated(s, i - 1)
    {
      accumulated := accumulated + At(s.buckets, i);
      rows := rows + [if total == 0 then NotANumber else Number(Share(accumulated, total))];
    }
  }

  lemma {:induction false} AccumulatedIsWithin(interval: int, xs: seq<real>, row: nat)
    requires interval > 0 && Whole(xs)
    ensures Accumulated(PushAll(interval, xs), row) == Within(xs, interval, row)
  {
    hide Within, PushAll;
    RowAdded(xs, interval, row);
    BucketsRefine(interval, xs, row);
    if row > 0 {
      AccumulatedIsWithin(interval, xs, row - 1);
    }
  }

  lemma {:induction false} SamplesAreWhole(nodes: seq<Node>)
    ensures Whole(AllSamples(nodes))
  {
    if nodes != [] {
      SamplesAreWhole(nodes[..|nodes| - 1]);
    }
  }

  /** From the nodes to the rows: whatever was measured, printed, read back and aggregated, each row
      is the exact fraction of the samples that count for it, or not a number without samples. */
  lemma ReportedRows(c: TextCodec, interval: int, histories: seq<seq<Entry>>, row: nat)
    requires Faithful(c) && interval > 0
    ensures var g := Reported(c, interval, Texts(c, histories));
            && g.Some?
            && RowOf(g.value.general, row) == (if AllSamples(g.value.nodes) == [] then NotANumber
                                               else Number(Fraction(AllSamples(g.value.nodes), interval, row)))
  {
    hide Reported, PushAll, AllSamples, Faithful, Within, Accumulated, Texts;
    ReportedConsistent(c, interval, histories);
    var g := Reported(c, interval, Texts(c, histories)).value;
    var xs := AllSamples(g.nodes);
    SamplesAreWhole(g.nodes);
    AccumulatedIsWithin(interval, xs, row);
    MeanRefines(interval, xs);
  }
}
