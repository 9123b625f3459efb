/** From the nodes to the metrics. What the protocol takes for granted of the reports, that the
    master can read the latencies in them, holds of the texts that the nodes print; and every
    measurement ends in the metric it was made for. */
module NodesToMetrics {
  import opened Options
  import opened Codec
  import NodeLatency
  import opened Master
  import opened ControllerLink
  import Protocol
  import GeneralLatency
  import Results

  function Letters(b: bytes): string {
    seq(|b|, i requires 0 <= i < |b| => b[i] as char)
  }

  predicate OneByteEach(s: string) {
    forall i :: 0 <= i < |s| ==> s[i] as int < 256
  }

  /** What is assumed of the date library beside NodeLatency.Faithful. */
  ghost predicate WritesBytes(c: NodeLatency.TextCodec) {
    && (forall t :: OneByteEach(c.showTime(t)))
    && (forall d :: OneByteEach(c.showDuration(d)))
  }

  /** The constructor of a node latency from a text does not end the process. */
  predicate CanParse(c: NodeLatency.TextCodec, value: bytes) {
    NodeLatency.Parse(c, Letters(value)).Some?
  }

  lemma LettersBack(s: string)
    requires OneByteEach(s)
    ensures Letters(Ascii(s)) == s
  {
    forall i | 0 <= i < |s| ensures Letters(Ascii(s))[i] == s[i] {
      assert Ascii(s)[i] == s[i] as int;
    }
  }

  lemma {:induction false} JoinedBytes(c: NodeLatency.TextCodec, es: seq<NodeLatency.Entry>)
    requires WritesBytes(c)
    ensures OneByteEach(NodeLatency.Joined(c, es))
  {
    if |es| > 1 {
      JoinedBytes(c, es[..|es| - 1]);
    }
  }

  lemma PrintedCanParse(c: NodeLatency.TextCodec, history: seq<NodeLatency.Entry>)
    requires NodeLatency.Faithful(c) && WritesBytes(c)
    ensures CanParse(c, Ascii(NodeLatency.Text(c, NodeLatency.After(history))))
  {
    var n := NodeLatency.After(history);
    NodeLatency.RoundTrip(c, history);
    JoinedBytes(c, NodeLatency.InOrder(n.measurements));
    LettersBack(NodeLatency.Text(c, n));
  }

  lemma EmptyCanParse(c: NodeLatency.TextCodec)
    ensures CanParse(c, [])
  {
    NodeLatency.ReadNothing(c);
    assert Letters([]) == "";
  }

  function Printed(c: NodeLatency.TextCodec, history: seq<NodeLatency.Entry>): bytes {
    Ascii(NodeLatency.Text(c, NodeLatency.After(history)))
  }

  /** When the master's reader is the one of the node latencies, the reports of a controller are
      readable, whatever its node has measured. */
  lemma RealReportsReadable(
    w: Workload, c: NodeLatency.TextCodec,
    joins: seq<NodeLatency.Entry>, leaves: seq<NodeLatency.Entry>,
    gets: seq<NodeLatency.Entry>, puts: seq<NodeLatency.Entry>, joinRate: bytes, getRate: bytes)
    requires NodeLatency.Faithful(c) && WritesBytes(c)
    requires forall value :: w.readable(value) <==> CanParse(c, value)
    ensures w.readable([])
    ensures var latencies := [Printed(c, joins), Printed(c, leaves), Printed(c, gets), Printed(c, puts)];
            Protocol.Readable(w, Written(latencies + [joinRate, getRate]))
  {
    hide NodeLatency.Faithful, WritesBytes, CanParse;
    EmptyCanParse(c);
    PrintedCanParse(c, joins);
    PrintedCanParse(c, leaves);
    PrintedCanParse(c, gets);
    PrintedCanParse(c, puts);
    RatesAreNotLatencies();
  }

  lemma RatesAreNotLatencies()
    ensures !IsLatency(REPORTS[4]) && !IsLatency(REPORTS[5])
  {
    forall k | 0 <= k < 4 ensures REPORTS[4] != REPORTS[k] && REPORTS[5] != REPORTS[k] {
      assert |REPORTS[k]| <= 12 && |REPORTS[4]| == 15 && |REPORTS[5]| == 14;
    }
  }

  // ---------- from the nodes to the metrics ----------

  /** What one controller has measured. */
  datatype Measured = Measured(
    joins: seq<NodeLatency.Entry>, leaves: seq<NodeLatency.Entry>,
    gets: seq<NodeLatency.Entry>, puts: seq<NodeLatency.Entry>, joinRate: bytes, getRate: bytes)

  function ReportsOf(c: NodeLatency.TextCodec, m: Measured): seq<Message> {
    Written([Printed(c, m.joins), Printed(c, m.leaves), Printed(c, m.gets), Printed(c, m.puts), m.joinRate, m.getRate])
  }

  /** What the master pushes when it gets the reports of one controller. */
  function PushedOf(c: NodeLatency.TextCodec, m: Measured): seq<Results.Push> {
    seq(6, k requires 0 <= k < 6 => PushOf(ReportsOf(c, m)[k]))
  }

  function PushOf(m: Message): Results.Push {
    match m
    case Report(kind, value) => Results.Push(Letters(kind), Letters(value))
    case _ => Results.Push("", "")
  }

  function AllPushed(c: NodeLatency.TextCodec, ms: seq<Measured>): seq<Results.Push> {
    if ms == [] then [] else AllPushed(c, ms[..|ms| - 1]) + PushedOf(c, ms[|ms| - 1])
  }

  function TextOf(c: NodeLatency.TextCodec, history: seq<NodeLatency.Entry>): string {
    NodeLatency.Text(c, NodeLatency.After(history))
  }

  lemma PrintedBack(c: NodeLatency.TextCodec, history: seq<NodeLatency.Entry>)
    requires WritesBytes(c)
    ensures Letters(Printed(c, history)) == TextOf(c, history)
  {
    JoinedBytes(c, NodeLatency.InOrder(NodeLatency.After(history).measurements));
    LettersBack(TextOf(c, history));
  }

  lemma NamesBack()
    ensures Letters(REPORTS[0]) == "JoinLatency" && Letters(REPORTS[1]) == "LeaveLatency"
    ensures Letters(REPORTS[2]) == "GetLatency" && Letters(REPORTS[3]) == "PutLatency"
    ensures Letters(REPORTS[4]) == "JoinSuccessRate" && Letters(REPORTS[5]) == "GetSuccessRate"
  {
    ReportNames();
    LettersBack("JoinLatency");
    LettersBack("LeaveLatency");
    LettersBack("GetLatency");
    LettersBack("PutLatency");
    LettersBack("JoinSuccessRate");
    LettersBack("GetSuccessRate");
  }

  lemma PushedNamed(c: NodeLatency.TextCodec, m: Measured)
    requires WritesBytes(c)
    ensures PushedOf(c, m) == [
              Results.Push("JoinLatency", TextOf(c, m.joins)), Results.Push("LeaveLatency", TextOf(c, m.leaves)),
              Results.Push("GetLatency", TextOf(c, m.gets)), Results.Push("PutLatency", TextOf(c, m.puts)),
              Results.Push("JoinSuccessRate", Letters(m.joinRate)), Results.Push("GetSuccessRate", Letters(m.getRate))]
  {
    hide WritesBytes, Printed, TextOf, Letters;
    NamesBack();
    PrintedBack(c, m.joins);
    PrintedBack(c, m.leaves);
    PrintedBack(c, m.gets);
    PrintedBack(c, m.puts);
  }

  lemma {:induction false} TextsOfBoth(a: seq<Results.Push>, b: seq<Results.Push>, kind: string)
    ensures Results.TextsOf(a + b, kind) == Results.TextsOf(a, kind) + Results.TextsOf(b, kind)
    decreases |b|
  {
    if b == [] {
      assert a + b == a;
    } else {
      assert (a + b)[..|a + b| - 1] == a + b[..|b| - 1];
      TextsOfBoth(a, b[..|b| - 1], kind);
    }
  }

  lemma TextOfOne(p: Results.Push, kind: string)
    ensures Results.TextsOf([p], kind) == if p.kind == kind then [p.text] else []
  {
    assert [p][..0] == [];
  }

  // of six reports with different names, one has a given name
  lemma OneOfSix(six: seq<Results.Push>, at: nat, kind: string)
    requires |six| == 6 && at < 6 && forall k :: 0 <= k < 6 ==> (six[k].kind == kind <==> k == at)
    ensures Results.TextsOf(six, kind) == [six[at].text]
  {
    hide Results.TextsOf;
    assert six[..0] == [];
    TextsOfNone(kind);
    for k := 0 to 6
      invariant Results.TextsOf(six[..k], kind) == if at < k then [six[at].text] else []
    {
      assert six[..k + 1] == six[..k] + [six[k]];
      TextsOfBoth(six[..k], [six[k]], kind);
      TextOfOne(six[k], kind);
    }
    assert six[..6] == six;
  }

  lemma TextsOfNone(kind: string)
    ensures Results.TextsOf([], kind) == []
  {
  }

  lemma NamesDiffer()
    ensures "JoinLatency" != "LeaveLatency" && "JoinLatency" != "GetLatency" && "JoinLatency" != "PutLatency"
    ensures "LeaveLatency" != "GetLatency" && "LeaveLatency" != "PutLatency" && "GetLatency" != "PutLatency"
    ensures forall name :: name in ["JoinLatency", "LeaveLatency", "GetLatency", "PutLatency"] ==>
              name != "JoinSuccessRate" && name != "GetSuccessRate"
  {
    assert "GetLatency"[0] != "PutLatency"[0];
    assert forall name :: name in ["JoinLatency", "LeaveLatency", "GetLatency", "PutLatency"] ==> |name| <= 12;
  }

  lemma TextsOfPushed(c: NodeLatency.TextCodec, m: Measured)
    requires WritesBytes(c)
    ensures Results.TextsOf(PushedOf(c, m), "JoinLatency") == [TextOf(c, m.joins)]
    ensures Results.TextsOf(PushedOf(c, m), "LeaveLatency") == [TextOf(c, m.leaves)]
    ensures Results.TextsOf(PushedOf(c, m), "GetLatency") == [TextOf(c, m.gets)]
    ensures Results.TextsOf(PushedOf(c, m), "PutLatency") == [TextOf(c, m.puts)]
  {
    hide WritesBytes, TextOf, PushedOf;
    PushedNamed(c, m);
    NamesDiffer();
    OneOfSix(PushedOf(c, m), 0, "JoinLatency");
    OneOfSix(PushedOf(c, m), 1, "LeaveLatency");
    OneOfSix(PushedOf(c, m), 2, "GetLatency");
    OneOfSix(PushedOf(c, m), 3, "PutLatency");
  }

  function Joins(ms: seq<Measured>): seq<seq<NodeLatency.Entry>> {
    seq(|ms|, i requires 0 <= i < |ms| => ms[i].joins)
  }

  function Leaves(ms: seq<Measured>): seq<seq<NodeLatency.Entry>> {
    seq(|ms|, i requires 0 <= i < |ms| => ms[i].leaves)
  }

  function Gets(ms: seq<Measured>): seq<seq<NodeLatency.Entry>> {
    seq(|ms|, i requires 0 <= i < |ms| => ms[i].gets)
  }

  function Puts(ms: seq<Measured>): seq<seq<NodeLatency.Entry>> {
    seq(|ms|, i requires 0 <= i < |ms| => ms[i].puts)
  }

  lemma TextsMore(c: NodeLatency.TextCodec, histories: seq<seq<NodeLatency.Entry>>)
    requires histories != []
    ensures var n := |histories| - 1;
            GeneralLatency.Texts(c, histories)
            == GeneralLatency.Texts(c, histories[..n]) + [TextOf(c, histories[n])]
  {
  }

  lemma {:induction false} TextsOfKind(
    c: NodeLatency.TextCodec, ms: seq<Measured>, kind: string, histories: seq<seq<NodeLatency.Entry>>)
    requires |histories| == |ms|
    requires forall i :: 0 <= i < |ms| ==>
               Results.TextsOf(PushedOf(c, ms[i]), kind) == [TextOf(c, histories[i])]
    ensures Results.TextsOf(AllPushed(c, ms), kind) == GeneralLatency.Texts(c, histories)
  {
    hide Results.TextsOf, PushedOf, TextOf;
    if ms == [] {
      TextsOfNone(kind);
    } else {
      hide GeneralLatency.Texts;
      var n := |ms| - 1;
      TextsOfKind(c, ms[..n], kind, histories[..n]);
      TextsOfBoth(AllPushed(c, ms[..n]), PushedOf(c, ms[n]), kind);
      TextsMore(c, histories);
    }
  }

  lemma TextsOfAll(c: NodeLatency.TextCodec, ms: seq<Measured>)
    requires WritesBytes(c)
    ensures Results.TextsOf(AllPushed(c, ms), "JoinLatency") == GeneralLatency.Texts(c, Joins(ms))
    ensures Results.TextsOf(AllPushed(c, ms), "LeaveLatency") == GeneralLatency.Texts(c, Leaves(ms))
    ensures Results.TextsOf(AllPushed(c, ms), "GetLatency") == GeneralLatency.Texts(c, Gets(ms))
    ensures Results.TextsOf(AllPushed(c, ms), "PutLatency") == GeneralLatency.Texts(c, Puts(ms))
  {
    hide WritesBytes, Results.TextsOf, GeneralLatency.Texts, PushedOf, TextOf, AllPushed;
    forall i | 0 <= i < |ms|
      ensures Results.TextsOf(PushedOf(c, ms[i]), "JoinLatency") == [TextOf(c, Joins(ms)[i])]
      ensures Results.TextsOf(PushedOf(c, ms[i]), "LeaveLatency") == [TextOf(c, Leaves(ms)[i])]
      ensures Results.TextsOf(PushedOf(c, ms[i]), "GetLatency") == [TextOf(c, Gets(ms)[i])]
      ensures Results.TextsOf(PushedOf(c, ms[i]), "PutLatency") == [TextOf(c, Puts(ms)[i])]
    {
      TextsOfPushed(c, ms[i]);
    }
    TextsOfKind(c, ms, "JoinLatency", Joins(ms));
    TextsOfKind(c, ms, "LeaveLatency", Leaves(ms));
    TextsOfKind(c, ms, "GetLatency", Gets(ms));
    TextsOfKind(c, ms, "PutLatency", Puts(ms));
  }

  /** Whatever the controllers have measured, when the master has got their reports the join metric
      is made of the joins, the leave metric of the leaves, the get metric of the gets and the put
      metric of the puts. */
  lemma MeasuredEndsInItsMetric(c: NodeLatency.TextCodec, lowLatency: bool, ms: seq<Measured>)
    requires NodeLatency.Faithful(c) && WritesBytes(c)
    ensures var r := Results.Collect(c, lowLatency, AllPushed(c, ms));
            && r.Some?
            && GeneralLatency.MadeOf(r.value.join, Joins(ms)) && GeneralLatency.MadeOf(r.value.leave, Leaves(ms))
            && GeneralLatency.MadeOf(r.value.get, Gets(ms)) && GeneralLatency.MadeOf(r.value.put, Puts(ms))
  {
    AllAcceptable(c, ms);
    hide NodeLatency.Faithful, WritesBytes, Results.Acceptable, GeneralLatency.MadeOf, GeneralLatency.Reported;
    TextsOfAll(c, ms);
    Results.CollectSeparates(c, lowLatency, AllPushed(c, ms));
    hide Results.Collect, AllPushed, Results.TextsOf, GeneralLatency.Texts;
    var slow, fast := if lowLatency then 250000 else 500000, if lowLatency then 10000 else 50000;
    GeneralLatency.ReportedMadeOf(c, slow, Joins(ms));
    GeneralLatency.ReportedMadeOf(c, slow, Leaves(ms));
    GeneralLatency.ReportedMadeOf(c, fast, Gets(ms));
    GeneralLatency.ReportedMadeOf(c, fast, Puts(ms));
  }

  lemma TextCanParse(c: NodeLatency.TextCodec, history: seq<NodeLatency.Entry>)
    requires NodeLatency.Faithful(c)
    ensures NodeLatency.Parse(c, TextOf(c, history)).Some?
  {
    NodeLatency.RoundTrip(c, history);
  }

  lemma SixAcceptable(c: NodeLatency.TextCodec, m: Measured)
    requires NodeLatency.Faithful(c) && WritesBytes(c)
    ensures forall p :: p in PushedOf(c, m) ==> Results.Acceptable(c, p)
  {
    hide NodeLatency.Faithful, WritesBytes, PushedOf, TextOf, NodeLatency.Parse;
    PushedNamed(c, m);
    TextCanParse(c, m.joins);
    TextCanParse(c, m.leaves);
    TextCanParse(c, m.gets);
    TextCanParse(c, m.puts);
  }

  lemma {:induction false} AllAcceptable(c: NodeLatency.TextCodec, ms: seq<Measured>)
    requires NodeLatency.Faithful(c) && WritesBytes(c)
    ensures forall p :: p in AllPushed(c, ms) ==> Results.Acceptable(c, p)
  {
    if ms != [] {
      hide NodeLatency.Faithful, WritesBytes, PushedOf, Results.Acceptable;
      AllAcceptable(c, ms[..|ms| - 1]);
      SixAcceptable(c, ms[|ms| - 1]);
    }
  }

  lemma LettersDiffer(a: bytes, b: bytes)
    ensures Letters(a) == Letters(b) <==> a == b
  {
    if Letters(a) == Letters(b) {
      assert |a| == |b|;
      forall i | 0 <= i < |a| ensures a[i] == b[i] {
        assert Letters(a)[i] == Letters(b)[i];
      }
    }
  }

  lemma IsNamed(kind: bytes, name: string)
    requires OneByteEach(name)
    ensures kind == Ascii(name) <==> Letters(kind) == name
  {
    LettersBack(name);
    LettersDiffer(kind, Ascii(name));
  }

  /** The handler of the master and the result processor agree on the reports that end the process. */
  lemma SameAcceptable(w: Workload, c: NodeLatency.TextCodec, kind: bytes, value: bytes)
    requires forall v :: w.readable(v) <==> CanParse(c, v)
    ensures Acceptable(w, kind, value) <==> Results.Acceptable(c, Results.Push(Letters(kind), Letters(value)))
  {
    hide NodeLatency.Parse;
    ReportNames();
    IsNamed(kind, "JoinLatency");
    IsNamed(kind, "LeaveLatency");
    IsNamed(kind, "GetLatency");
    IsNamed(kind, "PutLatency");
    IsNamed(kind, "JoinSuccessRate");
    IsNamed(kind, "GetSuccessRate");
    IsNamed(kind, "NodesStatus");
    InReports(kind);
    NamesDiffer();
    assert "NodesStatus"[0] == 'N' && "JoinSuccessRate"[0] == 'J' && "GetSuccessRate"[0] == 'G';
  }

  lemma InReports(kind: bytes)
    ensures IsLatency(kind) <==> kind == REPORTS[0] || kind == REPORTS[1] || kind == REPORTS[2] || kind == REPORTS[3]
    ensures KnownType(kind) <==>
              IsLatency(kind) || kind == REPORTS[4] || kind == REPORTS[5] || kind == Ascii("NodesStatus")
  {
    var reports := REPORTS;
    assert REPORTS == reports[..4] + [reports[4], reports[5]];
  }

  /** The assumptions can be met together. */
  lemma FaithfulBytesExist()
    ensures var c := NodeLatency.TextCodec(
              NodeLatency.Unary, NodeLatency.ReadUnary, NodeLatency.Unary, NodeLatency.ReadUnary);
            NodeLatency.Faithful(c) && WritesBytes(c)
  {
    NodeLatency.FaithfulExists();
    forall n ensures OneByteEach(NodeLatency.Unary(n)) {
      assert forall i :: 0 <= i < |NodeLatency.Unary(n)| ==>
          NodeLatency.Unary(n)[i] == '+' || NodeLatency.Unary(n)[i] == '-' || NodeLatency.Unary(n)[i] == '1';
    }
  }
}
