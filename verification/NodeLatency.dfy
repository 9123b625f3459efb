/** The latencies of one node, their printed form and the reading of it. Times and durations are
    numbers of microseconds; how a date or a duration is written is left to a TextCodec. */
module NodeLatency {
  import opened Options
  import opened Statistics

  datatype Entry = Entry(time: int, duration: int)

  datatype Node = Node(measurements: map<int, int>, stats: Stats)

  const NEW_NODE := Node(map[], Empty(0))

  function Measured(n: Node, e: Entry): Node {
    Node(n.measurements[e.time := e.duration], Pushed(n.stats, e.duration as real))
  }

  /** The node after a history of pushes. */
  function After(history: seq<Entry>): Node {
    if history == [] then NEW_NODE
    else Measured(After(history[..|history| - 1]), history[|history| - 1])
  }

  function Durations(es: seq<Entry>): seq<real> {
    seq(|es|, i requires 0 <= i < |es| => es[i].duration as real)
  }

  ghost predicate DistinctTimes(es: seq<Entry>) {
    forall i, j :: 0 <= i < j < |es| ==> es[i].time != es[j].time
  }

  // ---------- the order in which a map of measurements is visited ----------

  lemma HasElement(s: set<int>)
    requires |s| > 0
    ensures exists x :: x in s
  {
    assert (forall x :: x !in s) ==> s == {};
  }

  lemma {:induction false} HasLatest(s: set<int>)
    requires |s| > 0
    ensures exists k :: k in s && forall j :: j in s ==> j <= k
  {
    HasElement(s);
    var x :| x in s;
    var rest := s - {x};
    assert s == rest + {x};
    if |rest| == 0 {
      assert x in s && forall j :: j in s ==> j <= x;
    } else {
      HasLatest(rest);
      var k :| k in rest && forall j :: j in rest ==> j <= k;
      var top := if x < k then k else x;
      assert top in s && forall j :: j in s ==> j <= top;
    }
  }

  function Latest(s: set<int>): (k: int)
    requires |s| > 0
    ensures k in s && forall j :: j in s ==> j <= k
  {
    HasLatest(s);
    var k :| k in s && forall j :: j in s ==> j <= k;
    k
  }

  /** The measurements in increasing order of time. */
  function InOrder(m: map<int, int>): (es: seq<Entry>)
    decreases |m.Keys|
  {
    if |m.Keys| == 0 then []
    else var k := Latest(m.Keys); InOrder(m - {k}) + [Entry(k, m[k])]
  }

  lemma {:induction false} InOrderLists(m: map<int, int>)
    ensures |InOrder(m)| == |m.Keys|
    ensures forall e :: e in InOrder(m) <==> e.time in m && m[e.time] == e.duration
    ensures forall i, j :: 0 <= i < j < |InOrder(m)| ==> InOrder(m)[i].time < InOrder(m)[j].time
    decreases |m.Keys|
  {
    if |m.Keys| > 0 {
      var k := Latest(m.Keys);
      InOrderLists(m - {k});
      var rest := InOrder(m - {k});
      assert (m - {k}).Keys == m.Keys - {k};
      assert forall i :: 0 <= i < |rest| ==> rest[i] in rest && rest[i].time < k;
    }
  }

  // ---------- printing ----------

  datatype TextCodec = TextCodec(
    showTime: int -> string, readTime: string -> Option<int>,
    showDuration: int -> string, readDuration: string -> Option<int>)

  predicate NoSpace(s: string) {
    forall i :: 0 <= i < |s| ==> s[i] != ' '
  }

  /** What is assumed of the date library: what it writes it reads back, and it writes no space. */
  ghost predicate Faithful(c: TextCodec) {
    && (forall t :: c.readTime(c.showTime(t)) == Some(t) && NoSpace(c.showTime(t)) && c.showTime(t) != "")
    && (forall d :: c.readDuration(c.showDuration(d)) == Some(d) && NoSpace(c.showDuration(d)))
  }

  function Pair(c: TextCodec, e: Entry): string {
    c.showTime(e.time) + " " + c.showDuration(e.duration)
  }

  /** Entries written one after the other, with a space between any two. */
  function Joined(c: TextCodec, es: seq<Entry>): string {
    if es == [] then ""
    else if |es| == 1 then Pair(c, es[0])
    else Joined(c, es[..|es| - 1]) + " " + Pair(c, es[|es| - 1])
  }

  function Text(c: TextCodec, n: Node): string {
    Joined(c, InOrder(n.measurements))
  }

  // ---------- reading ----------

  /** The pieces of s between spaces; adjacent spaces have an empty piece between them. */
  function Split(s: string): (r: seq<string>)
    ensures |r| >= 1
  {
    if s == "" then [""]
    else
      var r := Split(s[1..]);
      if s[0] == ' ' then [""] + r else [[s[0]] + r[0]] + r[1..]
  }

  function Rounds(tokens: seq<string>): nat {
    (|tokens| + 1) / 2
  }

  /** What has been read after k rounds, each over two pieces; None when the process ends. */
  function Read(c: TextCodec, tokens: seq<string>, k: nat): Option<seq<Entry>>
    requires k <= Rounds(tokens)
  {
    if k == 0 then Some([])
    else
      match Read(c, tokens, k - 1)
      case None => None
      case Some(done) =>
        var i := 2 * (k - 1);
        if tokens[i] == "" then Some(done)
        else if c.readTime(tokens[i]).None? || i + 1 == |tokens| || c.readDuration(tokens[i + 1]).None? then None
        else Some(done + [Entry(c.readTime(tokens[i]).value, c.readDuration(tokens[i + 1]).value)])
  }

  /** The node rebuilt from a text. */
  function Parse(c: TextCodec, text: string): Option<Node> {
    match Read(c, Split(text), Rounds(Split(text)))
    case None => None
    case Some(es) => Some(After(es))
  }

  // ---------- the round trip ----------

  lemma {:induction false} SplitJoined(u: string, v: string)
    ensures Split(u + " " + v) == Split(u) + Split(v)
  {
    if u == "" {
      assert (u + " " + v)[1..] == v;
    } else {
      assert (u + " " + v)[1..] == u[1..] + " " + v;
      SplitJoined(u[1..], v);
    }
  }

  lemma {:induction false} SplitPiece(s: string)
    requires NoSpace(s)
    ensures Split(s) == [s]
  {
    if s != "" {
      SplitPiece(s[1..]);
      assert s == [s[0]] + s[1..];
    }
  }

  lemma SplitPair(c: TextCodec, e: Entry)
    requires Faithful(c)
    ensures Split(Pair(c, e)) == [c.showTime(e.time), c.showDuration(e.duration)]
  {
    SplitJoined(c.showTime(e.time), c.showDuration(e.duration));
    SplitPiece(c.showTime(e.time));
    SplitPiece(c.showDuration(e.duration));
  }

  ghost predicate Tokens(c: TextCodec, es: seq<Entry>, tokens: seq<string>) {
    && |tokens| == 2 * |es|
    && forall i :: 0 <= i < |es| ==>
         tokens[2 * i] == c.showTime(es[i].time) && tokens[2 * i + 1] == c.showDuration(es[i].duration)
  }

  lemma {:induction false} SplitText(c: TextCodec, es: seq<Entry>)
    requires Faithful(c) && es != []
    ensures Tokens(c, es, Split(Joined(c, es)))
  {
    hide Split, Faithful, Pair;
    var n := |es| - 1;
    SplitPair(c, es[n]);
    if n > 0 {
      SplitText(c, es[..n]);
      SplitJoined(Joined(c, es[..n]), Pair(c, es[n]));
    }
  }

  lemma {:induction false} ReadTokens(c: TextCodec, es: seq<Entry>, tokens: seq<string>, k: nat)
    requires Faithful(c) && Tokens(c, es, tokens) && k <= |es|
    ensures Read(c, tokens, k) == Some(es[..k])
  {
    if k > 0 {
      ReadTokens(c, es, tokens, k - 1);
      assert tokens[2 * (k - 1)] == c.showTime(es[k - 1].time);
      assert tokens[2 * (k - 1) + 1] == c.showDuration(es[k - 1].duration);
      assert es[..k] == es[..k - 1] + [es[k - 1]];
    }
  }

  lemma ReadNothing(c: TextCodec)
    ensures Split("") == [""] && Rounds([""]) == 1
    ensures Read(c, [""], 1) == Some([])
  {
    assert Read(c, [""], 0) == Some([]);
  }

  lemma ParseJoined(c: TextCodec, es: seq<Entry>)
    requires Faithful(c)
    ensures Parse(c, Joined(c, es)) == Some(After(es))
  {
    hide After, Faithful;
    if es == [] {
      hide Split, Read;
      ReadNothing(c);
    } else {
      hide Split, Read, Joined;
      SplitText(c, es);
      ReadTokens(c, es, Split(Joined(c, es)), |es|);
      assert es[..|es|] == es;
    }
  }

  /** Two measurements as they are written, whichever was made first. */
  lemma TextOfTwo(c: TextCodec, first: Entry, second: Entry)
    requires first.time < second.time
    ensures Text(c, After([second, first]))
         == c.showTime(first.time) + " " + c.showDuration(first.duration) + " "
            + c.showTime(second.time) + " " + c.showDuration(second.duration)
    ensures Text(c, After([second, first])) == Text(c, After([first, second]))
  {
    TwoInOrder(first, second);
    var es := [first, second];
    assert es[..1] == [first];
    assert Joined(c, [first]) == Pair(c, first);
    assert Joined(c, es) == Pair(c, first) + " " + Pair(c, second);
  }

  lemma TwoMeasured(a: Entry, b: Entry)
    requires a.time != b.time
    ensures After([a, b]).measurements == map[a.time := a.duration, b.time := b.duration]
  {
    hide Pushed;
    assert [a, b][..1] == [a] && [a][..0] == [];
    assert After([a]) == Measured(NEW_NODE, a);
  }

  lemma TwoInOrder(first: Entry, second: Entry)
    requires first.time < second.time
    ensures InOrder(After([second, first]).measurements) == [first, second]
    ensures After([second, first]).measurements == After([first, second]).measurements
  {
    hide After, InOrder;
    TwoMeasured(first, second);
    TwoMeasured(second, first);
    var m := map[first.time := first.duration, second.time := second.duration];
    assert After([second, first]).measurements == m;
    InOrderLists(m);
    var es := InOrder(m);
    assert m.Keys == {first.time, second.time};
    assert |m.Keys| == 2;
    assert es[0] in es && es[1] in es && es[0].time < es[1].time;
  }

  /** A time without a duration ends the process; an empty piece is passed over together with the
      piece after it, whatever that is; and an empty text is a node without measurements. */
  lemma OddTexts(c: TextCodec, t: int, piece: string)
    requires Faithful(c) && NoSpace(piece)
    ensures Parse(c, c.showTime(t)) == None
    ensures Parse(c, " " + piece) == Some(NEW_NODE)
    ensures Parse(c, "") == Some(NEW_NODE)
  {
    SplitPiece(c.showTime(t));
    SplitPiece(piece);
    ReadNothing(c);
    assert Split("") == [""];
    SplitJoined("", piece);
    assert "" + " " + piece == " " + piece;
    var one, two := [c.showTime(t)], ["", piece];
    assert Split(" " + piece) == two && Rounds(one) == Rounds(two) == 1;
    assert Read(c, one, 0) == Some([]) && Read(c, two, 0) == Some([]);
    assert Read(c, one, 1) == None && Read(c, two, 1) == Some([]);
  }

  lemma {:induction false} AfterStats(es: seq<Entry>)
    ensures After(es).stats == PushAll(0, Durations(es)) && After(es).stats.count == |es|
  {
    MeanRefines(0, Durations(es));
    if es != [] {
      var before := es[..|es| - 1];
      AfterStats(before);
      assert Durations(es)[..|es| - 1] == Durations(before);
    }
  }

  lemma {:induction false} AfterInOrder(m: map<int, int>)
    ensures After(InOrder(m)).measurements == m
    decreases |m.Keys|
  {
    if |m.Keys| > 0 {
      var k := Latest(m.Keys);
      AfterInOrder(m - {k});
      var es := InOrder(m);
      assert es[..|es| - 1] == InOrder(m - {k});
      assert m == (m - {k})[k := m[k]];
    }
  }

  lemma StatsInOrder(m: map<int, int>)
    requires |m.Keys| > 0
    ensures var k := Latest(m.Keys);
            After(InOrder(m)).stats == Pushed(After(InOrder(m - {k})).stats, m[k] as real)
  {
    hide Pushed;
    var k := Latest(m.Keys);
    assert InOrder(m)[..|InOrder(m)| - 1] == InOrder(m - {k});
  }

  /** A measurement at a new time can as well be pushed last. */
  lemma {:induction false} NewTimeLast(m: map<int, int>, e: Entry)
    requires e.time !in m
    ensures After(InOrder(m[e.time := e.duration])).stats == Pushed(After(InOrder(m)).stats, e.duration as real)
    decreases |m.Keys|
  {
    hide Pushed, InOrder, After;
    var more := m[e.time := e.duration];
    assert e.time in more.Keys;
    StatsInOrder(more);
    var k := Latest(more.Keys);
    if k == e.time {
      assert more - {k} == m;
    } else {
      assert k in m.Keys && forall j :: j in m.Keys ==> j in more.Keys;
      assert Latest(m.Keys) == k;
      NewTimeLast(m - {k}, e);
      assert more - {k} == (m - {k})[e.time := e.duration];
      StatsInOrder(m);
      PushesCommute(After(InOrder(m - {k})).stats, e.duration as real, m[k] as real);
    }
  }

  lemma TimesMore(before: seq<Entry>, m: map<int, int>, e: Entry)
    requires forall t :: t in m <==> exists i :: 0 <= i < |before| && before[i].time == t
    ensures DistinctTimes(before + [e]) <==> DistinctTimes(before) && e.time !in m
    ensures forall t :: t in m || t == e.time <==> exists i :: 0 <= i < |before + [e]| && (before + [e])[i].time == t
  {
    var more := before + [e];
    assert forall i :: 0 <= i < |before| ==> more[i] == before[i];
    assert more[|before|] == e;
  }

  lemma {:induction false} TimesHeld(history: seq<Entry>)
    ensures forall t :: t in After(history).measurements <==> exists i :: 0 <= i < |history| && history[i].time == t
    ensures |After(history).measurements.Keys| <= |history|
    ensures |After(history).measurements.Keys| == |history| <==> DistinctTimes(history)
  {
    if history != [] {
      hide Pushed, DistinctTimes;
      var before, e := history[..|history| - 1], history[|history| - 1];
      TimesHeld(before);
      var m := After(before).measurements;
      assert history == before + [e];
      TimesMore(before, m, e);
      assert After(history).measurements.Keys == m.Keys + {e.time};
      assert e.time in m ==> m.Keys + {e.time} == m.Keys;
    }
  }

  lemma {:induction false} DistinctRebuilt(history: seq<Entry>)
    requires DistinctTimes(history)
    ensures After(InOrder(After(history).measurements)) == After(history)
  {
    AfterInOrder(After(history).measurements);
    if history == [] {
      assert InOrder(map[]) == [];
    } else {
      hide Pushed;
      var before := history[..|history| - 1];
      DistinctRebuilt(before);
      TimesHeld(before);
      NewTimeLast(After(before).measurements, history[|history| - 1]);
    }
  }

  /** Reading back the text of a node restores its measurements; the statistics are rebuilt from
      these alone, so their count is the number of times measured. */
  lemma RoundTrip(c: TextCodec, history: seq<Entry>)
    requires Faithful(c)
    ensures var n := After(history);
            var back := Parse(c, Text(c, n));
            && back.Some?
            && back.value.measurements == n.measurements
            && back.value.stats == PushAll(0, Durations(InOrder(n.measurements)))
            && back.value.stats.count == |n.measurements.Keys| <= n.stats.count == |history|
  {
    var m := After(history).measurements;
    ParseJoined(c, InOrder(m));
    AfterInOrder(m);
    AfterStats(InOrder(m));
    InOrderLists(m);
    AfterStats(history);
    TimesHeld(history);
  }

  /** The whole node comes back exactly when no two measurements were made at the same time. */
  lemma RoundTripIff(c: TextCodec, history: seq<Entry>)
    requires Faithful(c)
    ensures Parse(c, Text(c, After(history))) == Some(After(history)) <==> DistinctTimes(history)
  {
    RoundTrip(c, history);
    TimesHeld(history);
    ParseJoined(c, InOrder(After(history).measurements));
    if DistinctTimes(history) {
      DistinctRebuilt(history);
    }
  }

  // ---------- the object ----------

  class NodeLatencyObject {
    var measurements: map<int, int>
    const statistics: StatisticsObject

    function Value(): Node
      reads this, statistics
    {
      Node(measurements, statistics.Value())
    }

    constructor ()
      ensures Value() == NEW_NODE && fresh(statistics)
    {
      measurements := map[];
      statistics := new StatisticsObject(0);
    }

    method PushWithTime(time: int, duration: int)
      modifies this, statistics
      ensures Value() == Measured(old(Value()), Entry(time, duration))
      ensures measurements == old(measurements)[time := duration]
      ensures statistics.Value() == Pushed(old(statistics.Value()), duration as real)
    {
      measurements := measurements[time := duration];
      statistics.Push(duration as real);
    }

    method ToString(c: TextCodec) returns (ret: string)
      ensures ret == Text(c, Value())
    {
      ret := "";
      var first := true;
      var order := InOrder(measurements);
      for i := 0 to |order|
        invariant first == (i == 0)
        invariant ret == Joined(c, order[..i])
      {
        if first {
          first := false;
        } else {
          ret := ret + " ";
        }
        assert order[..i + 1][..i] == order[..i];
        ret := ret + (c.showTime(order[i].time) + " ");
        ret := ret + c.showDuration(order[i].duration);
      }
      assert order[..|order|] == order;
    }

    /** The constructor from a string; null where the process ends. */
    static method FromString(c: TextCodec, text: string) returns (node: NodeLatencyObject?)
      ensures node == null <==> Parse(c, text).None?
      ensures node != null ==> fresh(node) && fresh(node.statistics) && Some(node.Value()) == Parse(c, text)
    {
      var result := new NodeLatencyObject();
      var tokens := Split(text);
      var i := 0;
      ghost var rounds := 0;
      while i < |tokens|
        invariant i == 2 * rounds && rounds <= Rounds(tokens)
        invariant Read(c, tokens, rounds).Some?
        invariant result.Value() == After(Read(c, tokens, rounds).value)
        invariant fresh(result) && fresh(result.statistics)
      {
        ghost var done := Read(c, tokens, rounds).value;
        rounds := rounds + 1;
        if tokens[i] != "" {
          var time := c.readTime(tokens[i]);
          if time.None? || i + 1 == |tokens| {
            ReadFails(c, tokens, rounds);
            return null;
          }
          var duration := c.readDuration(tokens[i + 1]);
          if duration.None? {
            ReadFails(c, tokens, rounds);
            return null;
          }
          result.PushWithTime(time.value, duration.value);
          assert (done + [Entry(time.value, duration.value)])[..|done|] == done;
        }
        i := i + 2;
      }
      assert rounds == Rounds(tokens);
      return result;
    }
  }

  lemma {:induction false} ReadFails(c: TextCodec, tokens: seq<string>, k: nat)
    requires k <= Rounds(tokens) && Read(c, tokens, k).None?
    ensures Read(c, tokens, Rounds(tokens)).None?
    decreases Rounds(tokens) - k
  {
    if k < Rounds(tokens) {
      ReadFails(c, tokens, k + 1);
    }
  }

  // ---------- the assumption can be met ----------

  function Unary(n: int): string {
    if n >= 0 then "+" + seq(n, _ => '1') else "-" + seq(-n, _ => '1')
  }

  function ReadUnary(s: string): Option<int> {
    if s == "" then None else if s[0] == '+' then Some(|s| - 1) else Some(1 - |s|)
  }

  lemma UnaryReadsBack(n: int)
    ensures ReadUnary(Unary(n)) == Some(n) && NoSpace(Unary(n)) && Unary(n) != ""
  {
  }

  lemma FaithfulExists()
    ensures Faithful(TextCodec(Unary, ReadUnary, Unary, ReadUnary))
  {
    hide Unary, ReadUnary, NoSpace;
    forall n ensures ReadUnary(Unary(n)) == Some(n) && NoSpace(Unary(n)) && Unary(n) != "" {
      UnaryReadsBack(n);
    }
  }
}
