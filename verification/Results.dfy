/** The results as the master collects them: every report is sent by its type to the metric it is
    part of. */
module Results {
  import opened Options
  import opened Events
  import opened NodeLatency
  import opened GeneralLatency

  datatype Push = Push(kind: string, text: string)

  /** Success rates and the status of the nodes are kept as the texts that were pushed. */
  datatype Collected = Collected(
    join: General, leave: General, put: General, get: General,
    joinRates: seq<string>, getRates: seq<string>, nodesStatus: string)
  {
    function Latency(op: Op): General {
      match op
      case Join => join
      case Leave => leave
      case Put => put
      case Get => get
    }

    function With(op: Op, latency: General): (r: Collected)
      ensures forall other :: r.Latency(other) == if other == op then latency else Latency(other)
      ensures r.joinRates == joinRates && r.getRates == getRates && r.nodesStatus == nodesStatus
    {
      match op
      case Join => this.(join := latency)
      case Leave => this.(leave := latency)
      case Put => this.(put := latency)
      case Get => this.(get := latency)
    }
  }

  // microseconds
  function Interval(op: Op, lowLatency: bool): int {
    if op == Join || op == Leave then (if lowLatency then 250_000 else 500_000)
    else if lowLatency then 10_000 else 50_000
  }

  function Start(lowLatency: bool): Collected {
    Collected(NewGeneral(Interval(Join, lowLatency)), NewGeneral(Interval(Leave, lowLatency)),
              NewGeneral(Interval(Put, lowLatency)), NewGeneral(Interval(Get, lowLatency)), [], [], "")
  }

  function LatencyName(op: Op): (name: string)
    ensures 1 <= |name| <= 12 && name[0] != 'N'
  {
    match op
    case Join => "JoinLatency"
    case Leave => "LeaveLatency"
    case Put => "PutLatency"
    case Get => "GetLatency"
  }

  lemma NamesDiffer(op: Op, other: Op)
    ensures LatencyName(op) == LatencyName(other) <==> op == other
  {
    assert LatencyName(op)[0] == LatencyName(other)[0] <==> op == other;
  }

  function OpNamed(kind: string): Option<Op> {
    if kind == LatencyName(Join) then Some(Join)
    else if kind == LatencyName(Leave) then Some(Leave)
    else if kind == LatencyName(Put) then Some(Put)
    else if kind == LatencyName(Get) then Some(Get)
    else None
  }

  /** pushResult; None where the process ends. */
  function Dispatch(c: TextCodec, r: Collected, p: Push): Option<Collected> {
    if OpNamed(p.kind).Some? then
      var op := OpNamed(p.kind).value;
      if Parse(c, p.text).None? then None
      else Some(r.With(op, PushNode(r.Latency(op), Parse(c, p.text).value)))
    else if p.kind == "JoinSuccessRate" then Some(r.(joinRates := r.joinRates + [p.text]))
    else if p.kind == "GetSuccessRate" then Some(r.(getRates := r.getRates + [p.text]))
    else if p.kind == "NodesStatus" then Some(r.(nodesStatus := p.text))
    else None
  }

  function Collect(c: TextCodec, lowLatency: bool, pushes: seq<Push>): Option<Collected> {
    if pushes == [] then Some(Start(lowLatency))
    else
      match Collect(c, lowLatency, pushes[..|pushes| - 1])
      case None => None
      case Some(r) => Dispatch(c, r, pushes[|pushes| - 1])
  }

  function TextsOf(pushes: seq<Push>, kind: string): seq<string> {
    if pushes == [] then []
    else
      var before, p := TextsOf(pushes[..|pushes| - 1], kind), pushes[|pushes| - 1];
      if p.kind == kind then before + [p.text] else before
  }

  function ReportedFor(c: TextCodec, lowLatency: bool, pushes: seq<Push>, op: Op): Option<General> {
    Reported(c, Interval(op, lowLatency), TextsOf(pushes, LatencyName(op)))
  }

  predicate IsLatencyName(kind: string) {
    kind == "JoinLatency" || kind == "LeaveLatency" || kind == "PutLatency" || kind == "GetLatency"
  }

  /** What the process does not end at: a known type and, if it is of latencies, a text that can
      be read. */
  predicate Acceptable(c: TextCodec, p: Push) {
    || (IsLatencyName(p.kind) && Parse(c, p.text).Some?)
    || p.kind == "JoinSuccessRate" || p.kind == "GetSuccessRate" || p.kind == "NodesStatus"
  }

  // what the metrics of one operation are, whatever the operation
  ghost predicate SeparateByOp(c: TextCodec, lowLatency: bool, pushes: seq<Push>, r: Collected) {
    && (forall op :: ReportedFor(c, lowLatency, pushes, op) == Some(r.Latency(op)))
    && r.joinRates == TextsOf(pushes, "JoinSuccessRate") && r.getRates == TextsOf(pushes, "GetSuccessRate")
    && r.nodesStatus == LastText(TextsOf(pushes, "NodesStatus"))
  }

  function LastText(texts: seq<string>): string {
    if texts == [] then "" else texts[|texts| - 1]
  }

  /** Every metric is made of the texts of its own type alone: half-second rows for joins and leaves,
      twentieths for puts and gets, or finer ones when latencies are low. */
  ghost predicate Separate(c: TextCodec, lowLatency: bool, pushes: seq<Push>, r: Collected) {
    && Reported(c, if lowLatency then 250000 else 500000, TextsOf(pushes, "JoinLatency")) == Some(r.join)
    && Reported(c, if lowLatency then 250000 else 500000, TextsOf(pushes, "LeaveLatency")) == Some(r.leave)
    && Reported(c, if lowLatency then 10000 else 50000, TextsOf(pushes, "PutLatency")) == Some(r.put)
    && Reported(c, if lowLatency then 10000 else 50000, TextsOf(pushes, "GetLatency")) == Some(r.get)
    && r.joinRates == TextsOf(pushes, "JoinSuccessRate") && r.getRates == TextsOf(pushes, "GetSuccessRate")
    && r.nodesStatus == LastText(TextsOf(pushes, "NodesStatus"))
  }

  lemma SeparateNamed(c: TextCodec, lowLatency: bool, pushes: seq<Push>, r: Collected)
    requires SeparateByOp(c, lowLatency, pushes, r)
    ensures Separate(c, lowLatency, pushes, r)
  {
    hide Reported, TextsOf, LastText;
    assert ReportedFor(c, lowLatency, pushes, Join) == Some(r.Latency(Join));
    assert ReportedFor(c, lowLatency, pushes, Leave) == Some(r.Latency(Leave));
    assert ReportedFor(c, lowLatency, pushes, Put) == Some(r.Latency(Put));
    assert ReportedFor(c, lowLatency, pushes, Get) == Some(r.Latency(Get));
  }

  lemma ReportedNext(c: TextCodec, lowLatency: bool, pushes: seq<Push>, op: Op)
    requires pushes != []
    ensures var last := pushes[|pushes| - 1];
            var before := ReportedFor(c, lowLatency, pushes[..|pushes| - 1], op);
            ReportedFor(c, lowLatency, pushes, op)
            == if OpNamed(last.kind) != Some(op) then before
               else if before.None? || Parse(c, last.text).None? then None
               else Some(PushNode(before.value, Parse(c, last.text).value))
  {
    hide Parse, PushNode, LatencyName, Interval;
    NamesDiffer(op, Join);
    NamesDiffer(op, Leave);
    NamesDiffer(op, Put);
    NamesDiffer(op, Get);
    var before, n := TextsOf(pushes[..|pushes| - 1], LatencyName(op)), |pushes| - 1;
    assert (before + [pushes[n].text])[..|before|] == before;
  }

  lemma RatesNamed(kind: string)
    ensures OpNamed(kind).Some? ==> kind != "JoinSuccessRate" && kind != "GetSuccessRate" && kind != "NodesStatus"
  {
    assert |"JoinSuccessRate"| == 15 && |"GetSuccessRate"| == 14 && "NodesStatus"[0] == 'N';
    hide LatencyName;
  }

  lemma NextSeparate(c: TextCodec, lowLatency: bool, pushes: seq<Push>, r: Collected)
    requires pushes != [] && SeparateByOp(c, lowLatency, pushes[..|pushes| - 1], r)
    requires Dispatch(c, r, pushes[|pushes| - 1]).Some?
    ensures SeparateByOp(c, lowLatency, pushes, Dispatch(c, r, pushes[|pushes| - 1]).value)
  {
    hide Parse, PushNode, OpNamed, ReportedFor;
    var next := Dispatch(c, r, pushes[|pushes| - 1]).value;
    RatesNamed(pushes[|pushes| - 1].kind);
    forall op ensures ReportedFor(c, lowLatency, pushes, op) == Some(next.Latency(op)) {
      ReportedNext(c, lowLatency, pushes, op);
    }
  }

  lemma NamedIff(kind: string)
    ensures OpNamed(kind).Some? <==> IsLatencyName(kind)
  {
  }

  lemma DispatchIff(c: TextCodec, r: Collected, p: Push)
    ensures Dispatch(c, r, p).Some? <==> Acceptable(c, p)
  {
    NamedIff(p.kind);
    RatesNamed(p.kind);
    hide Parse, PushNode, OpNamed, IsLatencyName;
  }

  lemma StartSeparate(c: TextCodec, lowLatency: bool)
    ensures SeparateByOp(c, lowLatency, [], Start(lowLatency))
  {
  }

  lemma {:induction false} CollectByOp(c: TextCodec, lowLatency: bool, pushes: seq<Push>)
    ensures Collect(c, lowLatency, pushes).Some? <==> forall p :: p in pushes ==> Acceptable(c, p)
    ensures Collect(c, lowLatency, pushes).Some? ==>
              SeparateByOp(c, lowLatency, pushes, Collect(c, lowLatency, pushes).value)
  {
    hide Acceptable, SeparateByOp, Dispatch;
    if pushes == [] {
      StartSeparate(c, lowLatency);
    } else {
      var n := |pushes| - 1;
      var before := Collect(c, lowLatency, pushes[..n]);
      CollectByOp(c, lowLatency, pushes[..n]);
      assert pushes[n] in pushes && forall p :: p in pushes <==> p in pushes[..n] || p == pushes[n];
      if before.Some? {
        DispatchIff(c, before.value, pushes[n]);
        if Acceptable(c, pushes[n]) {
          NextSeparate(c, lowLatency, pushes, before.value);
        }
      }
    }
  }

  /** However the reports of the controllers are mixed, every metric is what its own reports make
      it, in the order in which they arrived; all of it is collected exactly when every type is
      known and every latency can be read. */
  lemma CollectSeparates(c: TextCodec, lowLatency: bool, pushes: seq<Push>)
    ensures Collect(c, lowLatency, pushes).Some? <==> forall p :: p in pushes ==> Acceptable(c, p)
    ensures Collect(c, lowLatency, pushes).Some? ==>
              Separate(c, lowLatency, pushes, Collect(c, lowLatency, pushes).value)
  {
    hide Acceptable, Separate, SeparateByOp, Collect;
    CollectByOp(c, lowLatency, pushes);
    if Collect(c, lowLatency, pushes).Some? {
      SeparateNamed(c, lowLatency, pushes, Collect(c, lowLatency, pushes).value);
    }
  }

  /** One report of latencies, by its name. */
  lemma DispatchNamed(c: TextCodec, r: Collected, text: string)
    requires Parse(c, text).Some?
    ensures var n := Parse(c, text).value;
            && Dispatch(c, r, Push("JoinLatency", text)) == Some(r.(join := PushNode(r.join, n)))
            && Dispatch(c, r, Push("LeaveLatency", text)) == Some(r.(leave := PushNode(r.leave, n)))
            && Dispatch(c, r, Push("PutLatency", text)) == Some(r.(put := PushNode(r.put, n)))
            && Dispatch(c, r, Push("GetLatency", text)) == Some(r.(get := PushNode(r.get, n)))
  {
    hide Parse, PushNode;
    NamesDiffer(Join, Leave);
    NamesDiffer(Join, Put);
    NamesDiffer(Join, Get);
    NamesDiffer(Leave, Put);
    NamesDiffer(Leave, Get);
    NamesDiffer(Put, Get);
  }

  // ---------- the object ----------

  class ResultProcessor {
    const join: GeneralLatencyObject
    const leave: GeneralLatencyObject
    const put: GeneralLatencyObject
    const get: GeneralLatencyObject
    var joinRates: seq<string>
    var getRates: seq<string>
    var nodesStatus: string

    ghost function Repr(): set<object> {
      {this} + join.Repr() + leave.Repr() + put.Repr() + get.Repr()
    }

    ghost predicate Valid() {
      && join.Valid() && leave.Valid() && put.Valid() && get.Valid()
      && this !in join.Repr() && this !in leave.Repr() && this !in put.Repr() && this !in get.Repr()
      && leave.Repr() !! join.Repr() && put.Repr() !! join.Repr() && put.Repr() !! leave.Repr()
      && get.Repr() !! join.Repr() && get.Repr() !! leave.Repr() && get.Repr() !! put.Repr()
    }

    ghost function Value(): Collected
      reads Repr()
    {
      Collected(join.Value(), leave.Value(), put.Value(), get.Value(), joinRates, getRates, nodesStatus)
    }

    constructor (lowLatency: bool)
      ensures Valid() && Value() == Start(lowLatency)
      ensures join.general.interval == leave.general.interval == if lowLatency then 250 * 1000 else 500 * 1000
      ensures put.general.interval == get.general.interval == if lowLatency then 10 * 1000 else 50 * 1000
      ensures fresh(join.Repr()) && fresh(leave.Repr()) && fresh(put.Repr()) && fresh(get.Repr())
    {
      hide NewGeneral;
      var first := new GeneralLatencyObject(Interval(Join, lowLatency));
      var second := new GeneralLatencyObject(Interval(Leave, lowLatency));
      assert first.Repr() !! second.Repr();
      var third := new GeneralLatencyObject(Interval(Put, lowLatency));
      assert third.Repr() !! first.Repr() && third.Repr() !! second.Repr();
      var fourth := new GeneralLatencyObject(Interval(Get, lowLatency));
      assert fourth.Repr() !! first.Repr() && fourth.Repr() !! second.Repr() && fourth.Repr() !! third.Repr();
      join, leave, put, get := first, second, third, fourth;
      joinRates, getRates, nodesStatus := [], [], "";
    }

    method PushLatencyOf(c: TextCodec, op: Op, text: string) returns (ok: bool)
      requires Valid()
      modifies Repr()
      ensures ok <==> Parse(c, text).Some?
      ensures ok ==> Value() == old(Value()).With(op, PushNode(old(Value()).Latency(op), Parse(c, text).value))
    {
      hide Parse, PushNode;
      match op {
        case Join => ok := join.PushLatency(c, text);
        case Leave => ok := leave.PushLatency(c, text);
        case Put => ok := put.PushLatency(c, text);
        case Get => ok := get.PushLatency(c, text);
      }
    }

    /** false where the process ends. */
    method PushResult(c: TextCodec, kind: string, text: string) returns (ok: bool)
      requires Valid()
      modifies Repr()
      ensures ok <==> Dispatch(c, old(Value()), Push(kind, text)).Some?
      ensures ok ==> Some(Value()) == Dispatch(c, old(Value()), Push(kind, text))
      ensures ok && kind == "JoinLatency" ==>
                Value() == old(Value()).(join := PushNode(old(join.Value()), Parse(c, text).value))
      ensures ok && kind == "LeaveLatency" ==>
                Value() == old(Value()).(leave := PushNode(old(leave.Value()), Parse(c, text).value))
      ensures ok && kind == "PutLatency" ==>
                Value() == old(Value()).(put := PushNode(old(put.Value()), Parse(c, text).value))
      ensures ok && kind == "GetLatency" ==>
                Value() == old(Value()).(get := PushNode(old(get.Value()), Parse(c, text).value))
    {
      NamedIff(kind);
      DispatchIff(c, Value(), Push(kind, text));
      if Parse(c, text).Some? {
        DispatchNamed(c, Value(), text);
      }
      hide Parse, PushNode, OpNamed;
      var op := OpNamed(kind);
      if op.Some? {
        ok := PushLatencyOf(c, op.value, text);
      } else if kind == "JoinSuccessRate" {
        joinRates, ok := joinRates + [text], true;
      } else if kind == "GetSuccessRate" {
        getRates, ok := getRates + [text], true;
      } else if kind == "NodesStatus" {
        nodesStatus, ok := text, true;
      } else {
        ok := false;
      }
    }
  }
}
