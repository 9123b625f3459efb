/** Latencies of all the nodes together: one statistics over the samples of every node and one
    over the means of the nodes. */
module GeneralLatency {
  import opened Options
  import opened Statistics
  import opened NodeLatency

  /** nodes keeps the nodes pushed that had results. */
  datatype General = General(nodes: seq<Node>, means: Stats, general: Stats)

  function NewGeneral(interval: int): General {
    General([], Empty(0), Empty(interval))
  }

  function Samples(n: Node): seq<real> {
    Durations(InOrder(n.measurements))
  }

  function PushOn(s: Stats, xs: seq<real>): Stats {
    if xs == [] then s else Pushed(PushOn(s, xs[..|xs| - 1]), xs[|xs| - 1])
  }

  function PushNode(g: General, n: Node): General {
    if n.stats.count == 0 then g
    else General(g.nodes + [n], Pushed(g.means, n.stats.mean), PushOn(g.general, Samples(n)))
  }

  /** The latencies after the texts of several reports; None when the process ends at one. */
  function Reported(c: TextCodec, interval: int, texts: seq<string>): Option<General> {
    if texts == [] then Some(NewGeneral(interval))
    else
      var before := Reported(c, interval, texts[..|texts| - 1]);
      var node := Parse(c, texts[|texts| - 1]);
      if before.None? || node.None? then None else Some(PushNode(before.value, node.value))
  }

  // ---------- the simple definitions ----------

  function AllSamples(nodes: seq<Node>): seq<real> {
    if nodes == [] then [] else AllSamples(nodes[..|nodes| - 1]) + Samples(nodes[|nodes| - 1])
  }

  function Means(nodes: seq<Node>): seq<real> {
    seq(|nodes|, i requires 0 <= i < |nodes| => nodes[i].stats.mean)
  }

  /** The sum of the node means, each as often as the node has samples. */
  function Weighted(nodes: seq<Node>): real {
    if nodes == [] then 0.0 else Weighted(nodes[..|nodes| - 1]) + MeanTimesCount(nodes[|nodes| - 1].stats)
  }

  function TotalCount(nodes: seq<Node>): nat {
    if nodes == [] then 0 else TotalCount(nodes[..|nodes| - 1]) + nodes[|nodes| - 1].stats.count
  }

  /** As read back from its own text: the statistics are those of the measurements kept. */
  ghost predicate Rebuilt(n: Node) {
    n.stats == PushAll(0, Samples(n)) && n.stats.count == |Samples(n)|
  }

  ghost predicate Aggregated(g: General, interval: int) {
    && g.general == PushAll(interval, AllSamples(g.nodes))
    && g.means == PushAll(0, Means(g.nodes))
    && forall n :: n in g.nodes ==> n.stats.count >= 1
  }

  ghost predicate Consistent(g: General, interval: int) {
    Aggregated(g, interval) && forall n :: n in g.nodes ==> Rebuilt(n)
  }

  lemma {:induction false} PushOnAll(interval: int, xs: seq<real>, ys: seq<real>)
    ensures PushOn(PushAll(interval, xs), ys) == PushAll(interval, xs + ys)
    decreases |ys|
  {
    hide Pushed;
    if ys == [] {
      assert xs + ys == xs;
    } else {
      PushOnAll(interval, xs, ys[..|ys| - 1]);
      PushAllAppend(interval, xs + ys[..|ys| - 1], ys[|ys| - 1]);
      assert xs + ys[..|ys| - 1] + [ys[|ys| - 1]] == xs + ys;
    }
  }

  lemma AllSamplesMore(nodes: seq<Node>, n: Node)
    ensures AllSamples(nodes + [n]) == AllSamples(nodes) + Samples(n)
    ensures Means(nodes + [n]) == Means(nodes) + [n.stats.mean]
  {
    hide Samples;
    assert (nodes + [n])[..|nodes|] == nodes;
  }

  lemma ConsistentPushed(g: General, interval: int, n: Node)
    requires Consistent(g, interval) && Rebuilt(n)
    ensures Consistent(PushNode(g, n), interval)
  {
    hide Pushed, PushOn, PushAll, Samples, AllSamples, Means, Rebuilt;
    AggregatedPushed(g, interval, n);
  }

  lemma AggregatedPushed(g: General, interval: int, n: Node)
    requires Aggregated(g, interval)
    ensures Aggregated(PushNode(g, n), interval)
  {
    if n.stats.count > 0 {
      hide Pushed, PushOn, PushAll, Samples, AllSamples, Means;
      AllSamplesMore(g.nodes, n);
      PushOnAll(interval, AllSamples(g.nodes), Samples(n));
      PushAllAppend(0, Means(g.nodes), n.stats.mean);
    }
  }

  function Texts(c: TextCodec, histories: seq<seq<Entry>>): seq<string> {
    seq(|histories|, i requires 0 <= i < |histories| => Text(c, After(histories[i])))
  }

  lemma RebuiltParsed(c: TextCodec, history: seq<Entry>)
    requires Faithful(c)
    ensures var back := Parse(c, Text(c, After(history)));
            back.Some? && Rebuilt(back.value) && (back.value.stats.count > 0 <==> history != [])
  {
    RoundTrip(c, history);
    var n := After(history);
    InOrderLists(n.measurements);
    TimesHeld(history);
    if history != [] {
      assert history[0].time in n.measurements.Keys;
    }
  }

  lemma ReportedMore(c: TextCodec, interval: int, histories: seq<seq<Entry>>, last: seq<Entry>)
    requires Faithful(c) && Reported(c, interval, Texts(c, histories)).Some? && Parse(c, Text(c, After(last))).Some?
    ensures Reported(c, interval, Texts(c, histories + [last]))
         == Some(PushNode(Reported(c, interval, Texts(c, histories)).value, Parse(c, Text(c, After(last))).value))
  {
    hide Faithful, Parse, Text, After, PushNode;
    var texts := Texts(c, histories + [last]);
    assert texts[..|histories|] == Texts(c, histories);
  }

  ghost predicate NothingMeasured(histories: seq<seq<Entry>>) {
    forall i :: 0 <= i < |histories| ==> histories[i] == []
  }

  lemma NothingMore(histories: seq<seq<Entry>>, last: seq<Entry>)
    ensures NothingMeasured(histories + [last]) <==> NothingMeasured(histories) && last == []
  {
    var more := histories + [last];
    assert more[|histories|] == last;
    assert forall i :: 0 <= i < |histories| ==> more[i] == histories[i];
  }

  /** Reports made by printing node latencies are all read, and the aggregate is consistent. */
  lemma {:induction false} ReportedConsistent(c: TextCodec, interval: int, histories: seq<seq<Entry>>)
    requires Faithful(c)
    ensures Reported(c, interval, Texts(c, histories)).Some?
    ensures Consistent(Reported(c, interval, Texts(c, histories)).value, interval)
    ensures Reported(c, interval, Texts(c, histories)).value.nodes == [] <==> NothingMeasured(histories)
  {
    if histories != [] {
      hide Faithful, Parse, Text, Texts, After, Rebuilt, Reported, NothingMeasured, Consistent;
      var before, last := histories[..|histories| - 1], histories[|histories| - 1];
      assert histories == before + [last];
      ReportedConsistent(c, interval, before);
      RebuiltParsed(c, last);
      ReportedMore(c, interval, before, last);
      NothingMore(before, last);
      ConsistentPushed(Reported(c, interval, Texts(c, before)).value, interval, Parse(c, Text(c, After(last))).value);
    }
  }

  // ---------- what the aggregate is made of ----------

  lemma {:induction false} PushOnCount(s: Stats, xs: seq<real>)
    ensures PushOn(s, xs).count == s.count + |xs|
  {
    if xs != [] {
      PushOnCount(s, xs[..|xs| - 1]);
    }
  }

  lemma CountsPushed(g: General, n: Node)
    requires n.stats.count > 0
    ensures PushNode(g, n).means.count == g.means.count + 1
    ensures PushNode(g, n).general.count == g.general.count + |n.measurements.Keys|
  {
    PushOnCount(g.general, Samples(n));
    InOrderLists(n.measurements);
  }

  function NonEmpty(histories: seq<seq<Entry>>): seq<seq<Entry>> {
    if histories == [] then []
    else
      var before, last := NonEmpty(histories[..|histories| - 1]), histories[|histories| - 1];
      if last == [] then before else before + [last]
  }

  /** The different times of a history. */
  function DifferentTimes(history: seq<Entry>): set<int> {
    set e | e in history :: e.time
  }

  function KeptCount(histories: seq<seq<Entry>>): nat {
    if histories == [] then 0
    else KeptCount(histories[..|histories| - 1]) + |DifferentTimes(histories[|histories| - 1])|
  }

  /** nodes holds one node for each history with a measurement, in their order, with just what was
      measured last at each of its times; and the samples and the means are counted once each. */
  ghost predicate MadeOf(g: General, histories: seq<seq<Entry>>) {
    && |g.nodes| == |NonEmpty(histories)| == g.means.count
    && (forall k :: 0 <= k < |g.nodes| ==> KeepsLast(g.nodes[k].measurements, NonEmpty(histories)[k]))
    && g.general.count == KeptCount(histories)
  }

  ghost predicate KeepsLast(m: map<int, int>, history: seq<Entry>) {
    && m.Keys == DifferentTimes(history)
    && forall k :: 0 <= k < |history| && LastAt(history, history[k].time, k) ==>
         history[k].time in m && m[history[k].time] == history[k].duration
  }

  ghost predicate LastAt(history: seq<Entry>, t: int, k: int) {
    0 <= k < |history| && history[k].time == t && forall j :: k < j < |history| ==> history[j].time != t
  }

  lemma DifferentTimesMore(history: seq<Entry>, e: Entry)
    ensures DifferentTimes(history + [e]) == DifferentTimes(history) + {e.time}
  {
    var more := history + [e];
    assert e in more && forall x :: x in more <==> x in history || x == e;
  }

  lemma {:induction false} KeysAreTimes(history: seq<Entry>)
    ensures After(history).measurements.Keys == DifferentTimes(history)
  {
    if history == [] {
      NoTimes();
    } else {
      hide Pushed, DifferentTimes;
      var n := |history| - 1;
      KeysAreTimes(history[..n]);
      DifferentTimesMore(history[..n], history[n]);
      assert history == history[..n] + [history[n]];
    }
  }

  lemma {:induction false} LastIsKept(history: seq<Entry>, k: nat)
    requires k < |history| && LastAt(history, history[k].time, k)
    ensures history[k].time in After(history).measurements
    ensures After(history).measurements[history[k].time] == history[k].duration
    decreases |history|
  {
    hide Pushed;
    var n := |history| - 1;
    if k < n {
      assert history[n].time != history[k].time;
      LastIsKept(history[..n], k);
    }
  }

  lemma AfterKeepsLast(history: seq<Entry>)
    ensures KeepsLast(After(history).measurements, history)
  {
    hide After, DifferentTimes;
    KeysAreTimes(history);
    forall k | 0 <= k < |history| && LastAt(history, history[k].time, k)
      ensures history[k].time in After(history).measurements
      ensures After(history).measurements[history[k].time] == history[k].duration
    {
      LastIsKept(history, k);
    }
  }

  lemma MadeOfMore(g: General, histories: seq<seq<Entry>>, history: seq<Entry>, n: Node)
    requires MadeOf(g, histories) && n.measurements == After(history).measurements
    requires n.stats.count > 0 <==> history != []
    ensures MadeOf(PushNode(g, n), histories + [history])
  {
    var more := histories + [history];
    assert more[..|histories|] == histories;
    AfterKeepsLast(history);
    hide KeepsLast, PushOn, Pushed, Samples, DifferentTimes, After;
    if history == [] {
      NoTimes();
    } else {
      CountsPushed(g, n);
      KeysAreTimes(history);
    }
  }

  lemma NoTimes()
    ensures DifferentTimes([]) == {}
  {
  }

  /** Every report that holds a measurement is in the aggregate once, in its place, with what was
      kept of it, and no other. */
  lemma {:induction false} ReportedMadeOf(c: TextCodec, interval: int, histories: seq<seq<Entry>>)
    requires Faithful(c)
    ensures var g := Reported(c, interval, Texts(c, histories)); g.Some? && MadeOf(g.value, histories)
  {
    hide Faithful, Parse, Text, After, MadeOf, PushNode, Reported, Texts;
    if histories == [] {
      NothingMadeOf(c, interval);
    } else {
      var before, last := histories[..|histories| - 1], histories[|histories| - 1];
      assert histories == before + [last];
      ReportedMadeOf(c, interval, before);
      RoundTrip(c, last);
      RebuiltParsed(c, last);
      ReportedMore(c, interval, before, last);
      MadeOfMore(Reported(c, interval, Texts(c, before)).value, before, last, Parse(c, Text(c, After(last))).value);
    }
  }

  lemma NothingMadeOf(c: TextCodec, interval: int)
    ensures Reported(c, interval, Texts(c, [])) == Some(NewGeneral(interval)) && MadeOf(NewGeneral(interval), [])
  {
    NewMadeOf(interval);
  }

  // ---------- order of the reported columns ----------

  lemma {:induction false} SamplesIncluded(nodes: seq<Node>, i: nat, x: real)
    requires i < |nodes| && x in Samples(nodes[i])
    ensures x in AllSamples(nodes)
  {
    if i < |nodes| - 1 {
      SamplesIncluded(nodes[..|nodes| - 1], i, x);
    }
  }

  lemma {:induction false} WeightedIsSum(nodes: seq<Node>)
    requires forall n :: n in nodes ==> Rebuilt(n)
    ensures Sum(AllSamples(nodes)) == Weighted(nodes) && |AllSamples(nodes)| == TotalCount(nodes)
  {
    if nodes != [] {
      hide MeanTimesCount, PushAll, Samples;
      var before, n := nodes[..|nodes| - 1], nodes[|nodes| - 1];
      assert n in nodes && forall x :: x in before ==> x in nodes;
      WeightedIsSum(before);
      SumConcat(AllSamples(before), Samples(n));
      MeanRefines(0, Samples(n));
    }
  }

  lemma TimesCountBetween(s: Stats, low: real, high: real)
    requires low <= s.mean <= high
    ensures Scaled(low, s.count) <= MeanTimesCount(s) <= Scaled(high, s.count)
  {
    if s.count == 0 {
      assert Scaled(low, 0) == Scaled(s.mean, 0) == Scaled(high, 0) == 0.0;
    } else {
      hide Scaled;
      if low < s.mean {
        ScaledStrict(low, s.mean, s.count);
      }
      if s.mean < high {
        ScaledStrict(s.mean, high, s.count);
      }
    }
  }

  lemma {:induction false} WeightedBetween(nodes: seq<Node>, low: real, high: real)
    requires forall n :: n in nodes ==> low <= n.stats.mean <= high
    ensures Scaled(low, TotalCount(nodes)) <= Weighted(nodes) <= Scaled(high, TotalCount(nodes))
  {
    if nodes != [] {
      hide MeanTimesCount, Scaled;
      var before, n := nodes[..|nodes| - 1], nodes[|nodes| - 1];
      assert n in nodes && forall x :: x in before ==> x in nodes;
      WeightedBetween(before, low, high);
      TimesCountBetween(n.stats, low, high);
      ScaledMore(low, TotalCount(before), n.stats.count);
      ScaledMore(high, TotalCount(before), n.stats.count);
    }
  }

  /** The general mean is the mean of the node means weighted by their samples. */
  lemma GeneralMeanIsWeighted(g: General, interval: int)
    requires Consistent(g, interval)
    ensures MeanTimesCount(g.general) == Weighted(g.nodes) && g.general.count == TotalCount(g.nodes)
  {
    hide PushAll, MeanTimesCount;
    WeightedIsSum(g.nodes);
    MeanRefines(interval, AllSamples(g.nodes));
  }

  lemma NodeMeanInside(g: General, interval: int, i: nat)
    requires Consistent(g, interval) && i < |g.nodes|
    ensures AllSamples(g.nodes) != []
    ensures g.general.min <= g.nodes[i].stats.mean <= g.general.max
  {
    hide PushAll;
    var n := g.nodes[i];
    assert n in g.nodes;
    var x := Samples(n)[0];
    assert x in Samples(n);
    forall x | x in Samples(n) ensures x in AllSamples(g.nodes) {
      SamplesIncluded(g.nodes, i, x);
    }
    ExtremesRefine(interval, AllSamples(g.nodes));
    MeanBetween(0, Samples(n), g.general.min, g.general.max);
  }

  lemma MeansInside(g: General, interval: int)
    requires Consistent(g, interval) && g.nodes != []
    ensures forall n :: n in g.nodes ==> g.means.min <= n.stats.mean <= g.means.max
    ensures g.general.min <= g.means.min && g.means.max <= g.general.max
    ensures g.means.min <= g.means.mean <= g.means.max
  {
    hide PushAll;
    var means := Means(g.nodes);
    ExtremesRefine(0, means);
    MeanBetween(0, means, g.means.min, g.means.max);
    forall n | n in g.nodes ensures g.means.min <= n.stats.mean <= g.means.max {
      var i :| 0 <= i < |g.nodes| && g.nodes[i] == n;
      assert means[i] in means;
    }
    var low :| 0 <= low < |means| && means[low] == g.means.min;
    NodeMeanInside(g, interval, low);
    var high :| 0 <= high < |means| && means[high] == g.means.max;
    NodeMeanInside(g, interval, high);
  }

  ghost predicate ColumnsOrdered(g: General) {
    && g.general.min <= g.means.min
    && g.means.min <= g.means.mean <= g.means.max
    && g.means.min <= g.general.mean <= g.means.max
    && g.means.max <= g.general.max
  }

  lemma ConsistentOrdered(g: General, interval: int)
    requires Consistent(g, interval) && g.nodes != []
    ensures ColumnsOrdered(g)
  {
    hide PushAll, MeanTimesCount, Scaled, Weighted, Rebuilt, AllSamples, Means;
    MeansInside(g, interval);
    WeightedBetween(g.nodes, g.means.min, g.means.max);
    GeneralMeanIsWeighted(g, interval);
    assert g.nodes[|g.nodes| - 1] in g.nodes;
    assert g.general.count >= 1;
    MeanWithin(g.general, g.means.min, g.means.max);
  }

  /** Whatever was measured at the nodes, the columns reported are in order: the smallest sample,
      the smallest mean, both the mean and the mean of means, the largest mean, the largest sample. */
  lemma ReportedOrdered(c: TextCodec, interval: int, histories: seq<seq<Entry>>, i: nat)
    requires Faithful(c) && i < |histories| && histories[i] != []
    ensures var g := Reported(c, interval, Texts(c, histories));
            g.Some? && ColumnsOrdered(g.value)
            && MeanTimesCount(g.value.general) == Weighted(g.value.nodes)
            && g.value.general.count == TotalCount(g.value.nodes)
  {
    hide Reported, ColumnsOrdered, Consistent, MeanTimesCount, Faithful, Texts;
    ReportedConsistent(c, interval, histories);
    var g := Reported(c, interval, Texts(c, histories)).value;
    ConsistentOrdered(g, interval);
    GeneralMeanIsWeighted(g, interval);
  }

  // ---------- nodes pushed as they are ----------

  /** The aggregate of nodes that are not read back from their texts. */
  function Unread(histories: seq<seq<Entry>>, interval: int): General {
    if histories == [] then NewGeneral(interval)
    else PushNode(Unread(histories[..|histories| - 1], interval), After(histories[|histories| - 1]))
  }

  function TimesOf(history: seq<Entry>): seq<int> {
    seq(|history|, i requires 0 <= i < |history| => history[i].time)
  }

  ghost predicate AllDifferent(times: seq<int>) {
    forall i, j :: 0 <= i < j < |times| ==> times[i] != times[j]
  }

  /** The measurements of node i are made at times[i], in this order. */
  ghost predicate MeasuredAt(histories: seq<seq<Entry>>, times: seq<seq<int>>) {
    |histories| == |times| && forall i :: 0 <= i < |times| ==> TimesOf(histories[i]) == times[i]
  }

  lemma {:induction false} UnreadAggregated(histories: seq<seq<Entry>>, interval: int)
    ensures Aggregated(Unread(histories, interval), interval)
    ensures forall n :: n in Unread(histories, interval).nodes ==>
              exists i :: 0 <= i < |histories| && n == After(histories[i])
    ensures forall i :: 0 <= i < |histories| && histories[i] != [] ==>
              After(histories[i]) in Unread(histories, interval).nodes
  {
    hide After, PushOn, Pushed, Aggregated;
    if histories == [] {
      NewAggregated(interval);
    } else {
      var last := |histories| - 1;
      UnreadAggregated(histories[..last], interval);
      AggregatedPushed(Unread(histories[..last], interval), interval, After(histories[last]));
      AfterStats(histories[last]);
      forall n | n in Unread(histories, interval).nodes
        ensures exists i :: 0 <= i < |histories| && n == After(histories[i])
      {
        if n != After(histories[last]) {
          var i :| 0 <= i < last && n == After(histories[..last][i]);
          assert n == After(histories[i]);
        }
      }
      forall i | 0 <= i < |histories| && histories[i] != []
        ensures After(histories[i]) in Unread(histories, interval).nodes
      {
        assert i < last ==> histories[i] == histories[..last][i];
      }
    }
  }

  /** The same holds of nodes that are not read back from their texts. */
  lemma {:induction false} UnreadMadeOf(histories: seq<seq<Entry>>, interval: int)
    ensures MadeOf(Unread(histories, interval), histories)
  {
    hide After, MadeOf, PushNode;
    if histories == [] {
      NewMadeOf(interval);
    } else {
      var last := |histories| - 1;
      UnreadMadeOf(histories[..last], interval);
      AfterStats(histories[last]);
      assert histories == histories[..last] + [histories[last]];
      MadeOfMore(Unread(histories[..last], interval), histories[..last], histories[last], After(histories[last]));
    }
  }

  lemma NewMadeOf(interval: int)
    ensures MadeOf(NewGeneral(interval), [])
  {
  }

  lemma NewAggregated(interval: int)
    ensures Aggregated(NewGeneral(interval), interval)
  {
  }

  lemma DistinctIsRebuilt(history: seq<Entry>)
    requires DistinctTimes(history)
    ensures Rebuilt(After(history))
  {
    var n := After(history);
    DistinctRebuilt(history);
    AfterStats(InOrder(n.measurements));
  }

  lemma NothingOrdered(g: General, interval: int)
    requires Aggregated(g, interval) && g.nodes == []
    ensures ColumnsOrdered(g)
  {
  }

  lemma DistinctOrdered(histories: seq<seq<Entry>>, interval: int)
    requires forall i :: 0 <= i < |histories| ==> DistinctTimes(histories[i])
    ensures ColumnsOrdered(Unread(histories, interval))
  {
    hide ColumnsOrdered, Rebuilt, After, InOrder, Pushed, PushOn, DistinctTimes, Unread, Aggregated;
    UnreadAggregated(histories, interval);
    var g := Unread(histories, interval);
    forall n | n in g.nodes ensures Rebuilt(n) {
      var i :| 0 <= i < |histories| && n == After(histories[i]);
      DistinctIsRebuilt(histories[i]);
    }
    if g.nodes == [] {
      NothingOrdered(g, interval);
    } else {
      ConsistentOrdered(g, interval);
    }
  }

  // a measurement of 1 as the a-th of node i, and of 0 everywhere else
  function OneMeasured(times: seq<seq<int>>, i: nat, a: nat): seq<seq<Entry>> {
    seq(|times|, k requires 0 <= k < |times| => OneAt(times[k], if k == i then a else |times[k]|))
  }

  function OneAt(times: seq<int>, a: nat): seq<Entry> {
    seq(|times|, j requires 0 <= j < |times| => Entry(times[j], if j == a then 1 else 0))
  }

  lemma {:induction false} KeptFromLast(history: seq<Entry>, t: int)
    requires t in After(history).measurements
    ensures exists k :: LastAt(history, t, k) && history[k].duration == After(history).measurements[t]
  {
    var n := |history| - 1;
    if history[n].time == t {
      assert LastAt(history, t, n);
    } else {
      KeptFromLast(history[..n], t);
      var k :| LastAt(history[..n], t, k) && history[..n][k].duration == After(history[..n]).measurements[t];
      assert LastAt(history, t, k);
    }
  }

  /** Nothing but 0 is kept, when the one measurement of 1 is replaced by a later one at its time. */
  lemma ReplacedKeepsNone(times: seq<int>, a: nat, b: nat)
    requires a < |times| ==> a < b < |times| && times[a] == times[b]
    ensures forall x :: x in Samples(After(OneAt(times, a))) ==> x == 0.0
  {
    var history := OneAt(times, a);
    var m := After(history).measurements;
    InOrderLists(m);
    assert a < |times| ==> history[a].time == history[b].time;
    forall x | x in Samples(After(history)) ensures x == 0.0 {
      var p :| 0 <= p < |Samples(After(history))| && Samples(After(history))[p] == x;
      var e := InOrder(m)[p];
      assert e in InOrder(m);
      KeptFromLast(history, e.time);
      var k :| LastAt(history, e.time, k) && history[k].duration == m[e.time];
    }
  }

  lemma {:induction false} SumAtLeast(xs: seq<real>, i: nat)
    requires i < |xs| && forall x :: x in xs ==> x >= 0.0
    ensures Sum(xs) >= xs[i]
    decreases |xs|
  {
    var before := xs[..|xs| - 1];
    assert xs[|xs| - 1] in xs && forall x :: x in before ==> x in xs;
    if before != [] {
      assert before[0] in before;
      SumAtLeast(before, if i < |before| then i else 0);
    }
  }

  lemma ReplacedIsInMean(times: seq<int>, a: nat)
    requires a < |times|
    ensures After(OneAt(times, a)).stats.mean > 0.0
  {
    hide Pushed, PushAll;
    var history := OneAt(times, a);
    var xs := Durations(history);
    AfterStats(history);
    MeanRefines(0, xs);
    assert xs[a] == 1.0;
    SumAtLeast(xs, a);
  }

  lemma KeepsOne(history: seq<Entry>)
    requires history != []
    ensures Samples(After(history)) != []
  {
    TimesHeld(history);
    InOrderLists(After(history).measurements);
    assert history[0].time in After(history).measurements.Keys;
  }

  lemma {:induction false} SampleOfSome(nodes: seq<Node>, x: real)
    requires x in AllSamples(nodes)
    ensures exists n :: n in nodes && x in Samples(n)
  {
    hide Samples;
    var last := nodes[|nodes| - 1];
    if x in Samples(last) {
      assert last in nodes;
    } else {
      SampleOfSome(nodes[..|nodes| - 1], x);
    }
  }

  lemma AllZero(times: seq<seq<int>>, i: nat, a: nat, b: nat, interval: int)
    requires i < |times| && a < b < |times[i]| && times[i][a] == times[i][b]
    ensures forall x :: x in AllSamples(Unread(OneMeasured(times, i, a), interval).nodes) ==> x == 0.0
  {
    hide After, Samples, Unread, AllSamples, OneAt;
    var histories := OneMeasured(times, i, a);
    var nodes := Unread(histories, interval).nodes;
    forall x | x in AllSamples(nodes) ensures x == 0.0 {
      SampleOfSome(nodes, x);
      var n :| n in nodes && x in Samples(n);
      UnreadAggregated(histories, interval);
      var k :| 0 <= k < |histories| && n == After(histories[k]);
      ReplacedKeepsNone(times[k], if k == i then a else |times[k]|, b);
    }
  }

  lemma ReplacedBreaksOrder(times: seq<seq<int>>, i: nat, a: nat, b: nat, interval: int)
    requires i < |times| && a < b < |times[i]| && times[i][a] == times[i][b]
    ensures !ColumnsOrdered(Unread(OneMeasured(times, i, a), interval))
  {
    hide After, Samples, Unread, AllSamples, PushAll;
    var histories := OneMeasured(times, i, a);
    var g := Unread(histories, interval);
    UnreadAggregated(histories, interval);
    AllZero(times, i, a, b, interval);
    assert histories[i] == OneAt(times[i], a);
    var n := After(histories[i]);
    assert n in g.nodes;
    var k :| 0 <= k < |g.nodes| && g.nodes[k] == n;
    KeepsOne(histories[i]);
    SamplesIncluded(g.nodes, k, Samples(n)[0]);
    ExtremesRefine(interval, AllSamples(g.nodes));
    ReplacedIsInMean(times[i], a);
    assert Means(g.nodes)[k] in Means(g.nodes);
    ExtremesRefine(0, Means(g.nodes));
  }

  lemma OneMeasuredFits(times: seq<seq<int>>, i: nat, a: nat)
    ensures MeasuredAt(OneMeasured(times, i, a), times)
  {
    forall k | 0 <= k < |times| ensures TimesOf(OneMeasured(times, i, a)[k]) == times[k] {
      assert TimesOf(OneMeasured(times, i, a)[k]) == times[k];
    }
  }

  /** Nodes that are not read back from their texts keep the order of the columns, whatever is
      measured, exactly when none of them measures twice at the same time. */
  lemma UnreadOrderedIff(times: seq<seq<int>>, interval: int)
    ensures (forall histories: seq<seq<Entry>> ::
               MeasuredAt(histories, times) ==> ColumnsOrdered(Unread(histories, interval)))
       <==> forall i :: 0 <= i < |times| ==> AllDifferent(times[i])
  {
    if forall i :: 0 <= i < |times| ==> AllDifferent(times[i]) {
      hide ColumnsOrdered, Unread;
      forall histories: seq<seq<Entry>> | MeasuredAt(histories, times)
        ensures ColumnsOrdered(Unread(histories, interval))
      {
        forall i | 0 <= i < |histories| ensures DistinctTimes(histories[i]) {
          assert forall j :: 0 <= j < |histories[i]| ==> histories[i][j].time == times[i][j];
          assert AllDifferent(times[i]);
        }
        DistinctOrdered(histories, interval);
      }
    } else {
      var i :| 0 <= i < |times| && !AllDifferent(times[i]);
      var a, b :| 0 <= a < b < |times[i]| && times[i][a] == times[i][b];
      hide ColumnsOrdered, Unread, MeasuredAt, OneMeasured;
      ReplacedBreaksOrder(times, i, a, b, interval);
      OneMeasuredFits(times, i, a);
    }
  }

  // ---------- the object ----------

  class GeneralLatencyObject {
    var nodes: seq<Node>
    const means: StatisticsObject
    const general: StatisticsObject

    ghost predicate Valid() {
      means != general
    }

    ghost function Repr(): set<object> {
      {this, means, general}
    }

    ghost function Value(): General
      reads this, means, general
    {
      General(nodes, means.Value(), general.Value())
    }

    constructor (interval: int)
      ensures Valid() && Value() == NewGeneral(interval) && fresh(Repr()) && general.interval == interval
    {
      nodes := [];
      means := new StatisticsObject(0);
      general := new StatisticsObject(interval);
    }

    method Push(n: Node)
      requires Valid()
      modifies Repr()
      ensures Value() == PushNode(old(Value()), n)
      ensures n.stats.count == 0 ==> Value() == old(Value())
      ensures n.stats.count > 0 ==>
                && nodes == old(nodes) + [n]
                && means.count == old(means.count) + 1
                && general.count == old(general.count) + |n.measurements.Keys|
    {
      if n.stats.count == 0 {
        return;
      }
      CountsPushed(Value(), n);
      nodes := nodes + [n];
      means.Push(n.stats.mean);
      var samples := Samples(n);
      for i := 0 to |samples|
        invariant nodes == old(nodes) + [n] && means.Value() == Pushed(old(means.Value()), n.stats.mean)
        invariant general.Value() == PushOn(old(general.Value()), samples[..i])
      {
        general.Push(samples[i]);
        assert samples[..i + 1][..i] == samples[..i];
      }
      assert samples[..|samples|] == samples;
    }

    /** A latency report: read the node from its text and push it; false where the process ends. */
    method PushLatency(c: TextCodec, text: string) returns (ok: bool)
      requires Valid()
      modifies Repr()
      ensures ok <==> Parse(c, text).Some?
      ensures Value() == if ok then PushNode(old(Value()), Parse(c, text).value) else old(Value())
    {
      var node := NodeLatencyObject.FromString(c, text);
      if node == null {
        return false;
      }
      Push(node.Value());
      return true;
    }
  }
}
