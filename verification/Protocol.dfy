/** One master and its controllers over byte streams. Each action is one read, write, accept,
    disconnection or timeout; the invariant says exactly which bytes are under way. */
module Protocol {
  import opened Options
  import opened Codec
  import opened Connection
  import opened StartMessages
  import opened Master

  datatype Phase = Awaiting | Running | Reporting | Done | Dead | Confused

  /** A controller: received is what it has read so far, header the size of a body it is about to
      read, reports what it will send and sent how much of that it has written. Confused is its
      exit on an unexpected message. */
  datatype Ctrl = Ctrl(phase: Phase, header: Option<nat>, received: seq<Message>, reports: seq<Message>, sent: nat)

  datatype Sys = Sys(m: State, ctrls: seq<Ctrl>, timedOut: bool)

  datatype Action =
    | Accept
    | CtrlHeader(i: nat)
    | CtrlBody(i: nat)
    | Run(i: nat, reports: seq<Message>)
    | SendNext(i: nat)
    | Die(i: nat, keep: nat)
    | MasterHeader(i: nat)
    | MasterBody(i: nat)
    | MasterLost(i: nat)
    | Timeout

  const NEW_CTRL := Ctrl(Awaiting, None, [], [], 0)
  const NEW_SYS := Sys(NEW_MASTER, [], false)

  /** What reportResults and sendFinishMessage write: six reports in a fixed order, and a finish. */
  ghost predicate ReportsOk(r: seq<Message>) {
    && |r| == 7 && r[6] == Finish
    && forall k :: 0 <= k < 6 ==> r[k].Report? && r[k].kind == REPORTS[k] && Sendable(r[k])
  }

  /** The latencies among them can be read by the master. */
  ghost predicate Readable(w: Workload, r: seq<Message>) {
    forall k :: 0 <= k < |r| && r[k].Report? && IsLatency(r[k].kind) ==> w.readable(r[k].value)
  }

  // ---------- actions ----------

  function Out(s: Sys, i: nat): bytes
    requires i < |s.m.peers|
  {
    s.m.peers[i].conn.outgoing
  }

  function SetOut(m: State, i: nat, out: bytes): State
    requires i < |m.peers|
  {
    SetPeer(m, i, m.peers[i].(conn := m.peers[i].conn.(outgoing := out)))
  }

  function SetIn(m: State, i: nat, incoming: bytes): State
    requires i < |m.peers|
  {
    SetPeer(m, i, m.peers[i].(conn := m.peers[i].conn.(incoming := incoming)))
  }

  predicate Active(s: Sys, i: nat) {
    i < |s.ctrls| == |s.m.peers| && !s.m.stopped && !s.m.crashed
  }

  ghost predicate Enabled(w: Workload, s: Sys, a: Action) {
    |s.ctrls| == |s.m.peers| &&
    match a
    case Accept => |s.ctrls| < w.nodes == |w.profiles| == |w.hosts|
    case CtrlHeader(i) =>
      i < |s.ctrls| && s.ctrls[i].phase.Awaiting? && s.ctrls[i].header.None? && |Out(s, i)| >= HEADER_SIZE
    case CtrlBody(i) =>
      i < |s.ctrls| && s.ctrls[i].phase.Awaiting? && s.ctrls[i].header.Some? && |Out(s, i)| >= s.ctrls[i].header.value
    case Run(i, reports) =>
      i < |s.ctrls| && s.ctrls[i].phase.Running? && ReportsOk(reports) && Readable(w, reports)
    case SendNext(i) => i < |s.ctrls| && s.ctrls[i].phase.Reporting? && s.ctrls[i].sent < |s.ctrls[i].reports|
    case Die(i, keep) => i < |s.ctrls| && !s.ctrls[i].phase.Dead? && keep <= |s.m.peers[i].conn.incoming|
    case MasterHeader(i) => Active(s, i) && HeaderReady(s.m.peers[i].conn)
    case MasterBody(i) => Active(s, i) && BodyReady(s.m.peers[i].conn)
    case MasterLost(i) =>
      && Active(s, i) && s.ctrls[i].phase.Dead? && !s.m.peers[i].conn.waiting.Idle?
      && !HeaderReady(s.m.peers[i].conn) && !BodyReady(s.m.peers[i].conn)
    case Timeout => s.m.startSent && !s.m.stopped
  }

  // getNextMessage, the header: any other opcode than the expected one ends the process
  function CtrlReadHeader(c: Ctrl, out: bytes): (Ctrl, bytes)
    requires |out| >= HEADER_SIZE
  {
    var (opcode, bodySize) := (Signed(Number32(out[..4])), Number32(out[4..8]));
    if opcode != |c.received| + 1 then (c.(phase := Confused), out[HEADER_SIZE..])
    else (c.(header := Some(bodySize)), out[HEADER_SIZE..])
  }

  // getNextMessage, the body
  function CtrlReadBody(c: Ctrl, out: bytes): (Ctrl, bytes)
    requires c.header.Some? && |out| >= c.header.value
  {
    var n := c.header.value;
    match FromBits(|c.received| + 1, n, out[..n])
    case Fail => (c.(phase := Confused), out[n..])
    case Ok(m) =>
      (c.(header := None, received := c.received + [m],
          phase := if |c.received| + 1 == 3 then Running else Awaiting), out[n..])
  }

  ghost function Apply(w: Workload, s: Sys, a: Action): Sys
    requires Enabled(w, s, a)
  {
    match a
    case Accept => s.(m := HandleAccept(w, s.m), ctrls := s.ctrls + [NEW_CTRL])
    case CtrlHeader(i) =>
      var (c, out) := CtrlReadHeader(s.ctrls[i], Out(s, i));
      s.(m := SetOut(s.m, i, out), ctrls := s.ctrls[i := c])
    case CtrlBody(i) =>
      var (c, out) := CtrlReadBody(s.ctrls[i], Out(s, i));
      s.(m := SetOut(s.m, i, out), ctrls := s.ctrls[i := c])
    case Run(i, reports) => s.(ctrls := s.ctrls[i := s.ctrls[i].(phase := Reporting, reports := reports)])
    case SendNext(i) =>
      var c := s.ctrls[i];
      s.(m := SetIn(s.m, i, s.m.peers[i].conn.incoming + Encode(c.reports[c.sent])),
         ctrls := s.ctrls[i := c.(sent := c.sent + 1, phase := if c.sent + 1 == |c.reports| then Done else Reporting)])
    case Die(i, keep) =>
      s.(m := SetIn(s.m, i, s.m.peers[i].conn.incoming[..keep]), ctrls := s.ctrls[i := s.ctrls[i].(phase := Dead)])
    case MasterHeader(i) => s.(m := HeaderArrived(w, s.m, i))
    case MasterBody(i) => s.(m := BodyArrived(w, s.m, i))
    case MasterLost(i) => s.(m := HandleDisconnection(w, s.m, i))
    case Timeout => s.(m := s.m.(stopped := true), timedOut := true)
  }

  ghost predicate IsRun(w: Workload, run: seq<Sys>) {
    && |run| >= 1 && run[0] == NEW_SYS
    && forall k :: 0 <= k < |run| - 1 ==> Moves(w, run[k], run[k + 1])
  }

  ghost predicate Moves(w: Workload, s: Sys, t: Sys) {
    exists a :: Enabled(w, s, a) && t == Apply(w, s, a)
  }

  ghost predicate Reachable(w: Workload, s: Sys) {
    exists run :: IsRun(w, run) && run[|run| - 1] == s
  }

  // ---------- one controller and its two streams ----------

  function Down(w: Workload, i: nat): seq<Message>
    requires i < |w.profiles| == |w.hosts|
  {
    [DhtType(w.dhtType), w.profiles[i], StartMessage(w.duration, w.hosts, i)]
  }

  function SentDown(startSent: bool): nat {
    if startSent then 3 else 2
  }

  /** Under way to a controller is exactly what it has not read of what was sent to it. */
  ghost predicate DownOk(down: seq<Message>, n: nat, c: Ctrl, out: bytes)
    requires |down| == 3 && n <= 3
  {
    var k := |c.received|;
    && k <= n && c.received == down[..k] && !c.phase.Confused?
    && (c.phase.Awaiting? ==> k < 3)
    && (c.phase.Running? || c.phase.Reporting? || c.phase.Done? ==> k == 3 && c.header.None?)
    && match c.header
       case None => out == Stream(down[k..n])
       case Some(size) => k < n && size == |Body(down[k])| && out == Body(down[k]) + Stream(down[k + 1..n])
  }

  function Handled(p: Peer): nat {
    |p.results| + if p.outcome.Completed? then 1 else 0
  }

  ghost predicate ResultsOk(r: seq<Message>, results: seq<Pushed>) {
    && |results| <= |r| && |results| <= 6
    && forall k :: 0 <= k < |results| ==> r[k].Report? && results[k] == Pushed(r[k].kind, r[k].value)
  }

  // the bytes of r from message h to message n that the connection has not read
  function Flight(r: seq<Message>, h: nat, n: nat, waiting: Waiting): bytes
    requires h <= n <= |r| && (waiting.ForBody? ==> h < n)
  {
    if waiting.ForBody? then Body(r[h]) + Stream(r[h + 1..n]) else Stream(r[h..n])
  }

  /** Under way to the master is exactly what it has not read of what was written, or a part of
      it when the controller is gone. */
  ghost predicate UpOk(c: Ctrl, p: Peer, startSent: bool) {
    var h := Handled(p);
    && h <= c.sent <= 7
    && (c.phase.Awaiting? || c.phase.Running? ==> c.sent == 0)
    && (c.phase.Reporting? ==> c.sent < 7) && (c.phase.Done? ==> c.sent == 7)
    && (c.sent > 0 || c.phase.Reporting? ==> ReportsOk(c.reports))
    && ResultsOk(c.reports, p.results) && (p.outcome.Completed? ==> |p.results| == 6)
    && (!startSent ==> p.outcome.Pending?) && (p.outcome.Failed? ==> c.phase.Dead?)
    && (p.conn.waiting.Idle? <==> !(startSent && p.outcome.Pending?))
    && (if p.outcome.Failed? then Abandoned(c, p) else InFlight(c, p))
  }

  ghost predicate InFlight(c: Ctrl, p: Peer) {
    var h := Handled(p);
    && h <= c.sent && (c.sent > 0 ==> c.sent <= |c.reports|)
    && (p.conn.waiting.ForBody? ==>
          h < c.sent && p.conn.opcode == Opcode(c.reports[h]) && p.conn.bodySize == |Body(c.reports[h])| > 0)
    && var flight := if c.sent == 0 then [] else Flight(c.reports, h, c.sent, p.conn.waiting);
       p.conn.incoming <= flight && (!c.phase.Dead? ==> p.conn.incoming == flight)
  }

  function WaitingAs(p: Peer, waiting: Waiting): Peer {
    p.(conn := p.conn.(waiting := waiting))
  }

  /** What was under way when the master noticed that the controller was gone. */
  ghost predicate Abandoned(c: Ctrl, p: Peer) {
    exists waiting :: InFlight(c, WaitingAs(p, waiting))
  }

  ghost predicate LinkOk(w: Workload, startSent: bool, i: nat, c: Ctrl, p: Peer)
    requires i < |w.profiles| == |w.hosts|
  {
    && DownOk(Down(w, i), SentDown(startSent), c, p.conn.outgoing) && UpOk(c, p, startSent)
    && (c.sent > 0 || c.phase.Reporting? ==> Readable(w, c.reports))
  }

  // ---------- the whole system ----------

  function CountDone(peers: seq<Peer>): nat {
    if peers == [] then 0
    else CountDone(peers[..|peers| - 1]) + if peers[|peers| - 1].outcome.Pending? then 0 else 1
  }

  function CountFailed(peers: seq<Peer>): nat {
    if peers == [] then 0
    else CountFailed(peers[..|peers| - 1]) + if peers[|peers| - 1].outcome.Failed? then 1 else 0
  }

  ghost predicate CountsOk(w: Workload, s: Sys) {
    && s.m.finished == CountDone(s.m.peers) && s.m.failed == CountFailed(s.m.peers)
    && (s.m.stopped <==> s.timedOut || s.m.finished == w.nodes)
  }

  ghost predicate LinksOk(w: Workload, s: Sys)
    requires WellFormed(w)
  {
    && |s.ctrls| == |s.m.peers| <= w.nodes
    && (s.m.startSent <==> |s.m.peers| == w.nodes)
    && forall i :: 0 <= i < |s.ctrls| ==> LinkOk(w, s.m.startSent, i, s.ctrls[i], s.m.peers[i])
  }

  ghost predicate Inv(w: Workload, s: Sys)
    requires WellFormed(w)
  {
    LinksOk(w, s) && CountsOk(w, s) && !s.m.crashed
  }

  // ---------- reading a stream ----------

  lemma StreamHead(r: seq<Message>, k: nat, n: nat)
    requires k < n <= |r|
    ensures Stream(r[k..n]) == Encode(r[k]) + Stream(r[k + 1..n])
    ensures |Encode(r[k])| >= HEADER_SIZE
  {
    assert r[k..n][1..] == r[k + 1..n];
  }

  lemma StreamEmpty(r: seq<Message>, k: nat)
    requires k <= |r|
    ensures Stream(r[k..k]) == []
  {
  }

  lemma StreamLonger(r: seq<Message>, k: nat, n: nat)
    requires k <= n < |r|
    ensures Stream(r[k..n + 1]) == Stream(r[k..n]) + Encode(r[n])
  {
    assert r[k..n + 1] == r[k..n] + [r[n]];
    StreamAppend(r[k..n], r[n]);
  }

  lemma DownRead(down: seq<Message>, n: nat, c: Ctrl, out: bytes)
    requires |down| == 3 && n <= 3 && DownOk(down, n, c, out)
    requires c.phase.Awaiting? && c.header.None? && |out| >= HEADER_SIZE
    requires forall k :: 0 <= k < 3 ==> Sendable(down[k]) && Opcode(down[k]) == k + 1
    ensures var (c', out') := CtrlReadHeader(c, out); DownOk(down, n, c', out')
  {
    hide Encode, Body, Sendable, Opcode;
    var k := |c.received|;
    if k < n {
      StreamHead(down, k, n);
      SendableFits(down[k]);
      HeaderBack(down[k], Stream(down[k + 1..n]));
    }
  }

  lemma SendableFits(m: Message)
    requires Sendable(m)
    ensures |Body(m)| < 0x1_0000_0000
  {
  }

  lemma DownDecoded(down: seq<Message>, n: nat, c: Ctrl, out: bytes)
    requires |down| == 3 && n <= 3 && DownOk(down, n, c, out)
    requires c.phase.Awaiting? && c.header.Some? && |out| >= c.header.value
    requires forall k :: 0 <= k < 3 ==> Sendable(down[k]) && Opcode(down[k]) == k + 1
    ensures var (c', out') := CtrlReadBody(c, out); DownOk(down, n, c', out')
  {
    hide Encode, Body, Sendable, Opcode, FromBits;
    var k := |c.received|;
    var body := Body(down[k]);
    assert out[..|body|] == body && out[|body|..] == Stream(down[k + 1..n]);
    EncodedDecodes(down[k], body);
    assert down[..k + 1] == down[..k] + [down[k]];
  }

  // ---------- the stream to the master ----------

  lemma PrefixParts(incoming: bytes, flight: bytes, n: nat)
    requires incoming <= flight && n <= |incoming|
    ensures incoming[..n] == flight[..n] && incoming[n..] <= flight[n..]
    ensures incoming == flight ==> incoming[n..] == flight[n..]
  {
  }

  // a header that is ready is the header of the next message
  lemma NextHeader(c: Ctrl, p: Peer, startSent: bool)
    requires UpOk(c, p, startSent) && HeaderReady(p.conn)
    ensures p.outcome.Pending? && startSent && ReportsOk(c.reports) && |c.reports| == 7
    ensures var h := Handled(p);
            && h < c.sent <= 7 && p.conn.incoming <= Encode(c.reports[h]) + Stream(c.reports[h + 1..c.sent])
            && (!c.phase.Dead? ==> p.conn.incoming == Encode(c.reports[h]) + Stream(c.reports[h + 1..c.sent]))
            && HeaderOf(p.conn) == (Opcode(c.reports[h]), |Body(c.reports[h])|)
  {
    hide Encode, Body, Sendable, Opcode;
    var r, h := c.reports, Handled(p);
    if h == c.sent {
      StreamEmpty(r, h);
    } else {
      StreamHead(r, h, c.sent);
      var flight := Stream(r[h..c.sent]);
      ReportSendable(r, h);
      SendableFits(r[h]);
      HeaderBack(r[h], Stream(r[h + 1..c.sent]));
      assert p.conn.incoming[..4] == flight[..4] && p.conn.incoming[4..8] == flight[4..8];
    }
  }

  lemma ReportSendable(r: seq<Message>, h: nat)
    requires ReportsOk(r) && h < 7
    ensures Sendable(r[h]) && (Body(r[h]) == [] <==> h == 6)
    ensures h < 6 ==> r[h].Report? && KnownType(r[h].kind)
  {
  }

  lemma HeaderSkipped(m: Message, tail: bytes, incoming: bytes)
    requires Sendable(m) && incoming <= Encode(m) + tail && |incoming| >= HEADER_SIZE
    ensures incoming[HEADER_SIZE..] <= Body(m) + tail
    ensures incoming == Encode(m) + tail ==> incoming[HEADER_SIZE..] == Body(m) + tail
  {
    HeaderBack(m, tail);
    PrefixParts(incoming, Encode(m) + tail, HEADER_SIZE);
  }

  lemma UpHeader(c: Ctrl, p: Peer, startSent: bool)
    requires UpOk(c, p, startSent) && HeaderReady(p.conn)
    ensures var (conn, early) := HeaderRead(p.conn);
            match early
            case None => UpOk(c, p.(conn := conn), startSent)
            case Some(d) => d == Ok(Finish) && UpOk(c, p.(conn := conn, outcome := Completed), startSent)
  {
    hide Encode, Body, Sendable, FromBits, Number32, Signed;
    NextHeader(c, p, startSent);
    var r, h := c.reports, Handled(p);
    ReportSendable(r, h);
    HeaderSkipped(r[h], Stream(r[h + 1..c.sent]), p.conn.incoming);
    if h == 6 {
      EncodedDecodes(r[6], p.conn.bodyBuffer);
    }
  }

  // a body that is ready is the body of the next message, and that is a report
  lemma NextBody(c: Ctrl, p: Peer, startSent: bool)
    requires UpOk(c, p, startSent) && BodyReady(p.conn)
    ensures p.outcome.Pending? && startSent && ReportsOk(c.reports) && |c.reports| == 7
    ensures var h := Handled(p);
            && h < c.sent <= 7 && h < 6
            && p.conn.opcode == Opcode(c.reports[h]) && p.conn.bodySize == |Body(c.reports[h])|
            && p.conn.incoming <= Body(c.reports[h]) + Stream(c.reports[h + 1..c.sent])
            && (!c.phase.Dead? ==> p.conn.incoming == Body(c.reports[h]) + Stream(c.reports[h + 1..c.sent]))
  {
    hide Encode, Body, Sendable, Opcode;
    ReportSendable(c.reports, Handled(p));
  }

  lemma InFlightNext(c: Ctrl, p: Peer)
    requires ReportsOk(c.reports) && Handled(p) <= c.sent <= 7 && c.sent > 0 && p.conn.waiting.ForHeader?
    requires p.conn.incoming <= Stream(c.reports[Handled(p)..c.sent])
    requires !c.phase.Dead? ==> p.conn.incoming == Stream(c.reports[Handled(p)..c.sent])
    ensures InFlight(c, p)
  {
  }

  lemma BodySkipped(body: bytes, tail: bytes, incoming: bytes)
    requires incoming <= body + tail && |incoming| >= |body|
    ensures incoming[..|body|] == body && incoming[|body|..] <= tail
    ensures incoming == body + tail ==> incoming[|body|..] == tail
  {
    PrefixParts(incoming, body + tail, |body|);
    assert (body + tail)[..|body|] == body && (body + tail)[|body|..] == tail;
  }

  lemma BodyIsReport(c: Ctrl, p: Peer, startSent: bool)
    requires UpOk(c, p, startSent) && BodyReady(p.conn)
    ensures var h := Handled(p);
            var (conn, d) := BodyRead(p.conn);
            && h < 6 && h < c.sent <= 7 && ReportsOk(c.reports) && |c.reports| == 7
            && d == Ok(c.reports[h]) && c.reports[h].Report? && KnownType(c.reports[h].kind)
            && conn.waiting.Idle? && conn.incoming <= Stream(c.reports[h + 1..c.sent])
            && (!c.phase.Dead? ==> conn.incoming == Stream(c.reports[h + 1..c.sent]))
  {
    hide Encode, Body, Sendable, FromBits, KnownType, InFlight, Abandoned, Stream, Opcode, ReportsOk;
    NextBody(c, p, startSent);
    hide UpOk;
    var m := c.reports[Handled(p)];
    ReportSendable(c.reports, Handled(p));
    BodySkipped(Body(m), Stream(c.reports[Handled(p) + 1..c.sent]), p.conn.incoming);
    EncodedDecodes(m, Body(m));
  }

  lemma UpBody(c: Ctrl, p: Peer, startSent: bool)
    requires UpOk(c, p, startSent) && BodyReady(p.conn)
    ensures var (conn, d) := BodyRead(p.conn);
            && d.Ok? && d.message.Report? && KnownType(d.message.kind)
            && c.sent > 0 && d.message in c.reports
            && var results := p.results + [Pushed(d.message.kind, d.message.value)];
               UpOk(c, p.(conn := Wait(conn), results := results), startSent)
  {
    hide KnownType, InFlight, Abandoned, Stream, ReportsOk, BodyRead;
    BodyIsReport(c, p, startSent);
    NextPending(c, p, startSent);
    var (conn, d) := BodyRead(p.conn);
    InFlightNext(c, p.(conn := Wait(conn), results := p.results + [Pushed(d.message.kind, d.message.value)]));
  }

  lemma FlightMore(r: seq<Message>, h: nat, n: nat, waiting: Waiting)
    requires h <= n < |r| && (waiting.ForBody? ==> h < n)
    ensures Flight(r, h, n + 1, waiting) == Flight(r, h, n, waiting) + Encode(r[n])
  {
    hide Encode, Body;
    if waiting.ForBody? {
      StreamLonger(r, h + 1, n);
    } else {
      StreamLonger(r, h, n);
    }
  }

  lemma InFlightMore(c: Ctrl, p: Peer, c': Ctrl, p': Peer)
    requires InFlight(c, p) && ReportsOk(c.reports) && c.sent < 7 && !c.phase.Dead? && !c'.phase.Dead?
    requires c' == c.(sent := c.sent + 1, phase := c'.phase)
    requires p' == p.(conn := p.conn.(incoming := p.conn.incoming + Encode(c.reports[c.sent])))
    ensures InFlight(c', p')
  {
    hide Encode, Body, Sendable;
    FlightMore(c.reports, Handled(p), c.sent, p.conn.waiting);
    StreamEmpty(c.reports, Handled(p));
  }

  lemma UpSent(c: Ctrl, p: Peer, startSent: bool)
    requires UpOk(c, p, startSent) && c.phase.Reporting? && c.sent < |c.reports|
    ensures UpOk(c.(sent := c.sent + 1, phase := if c.sent + 1 == |c.reports| then Done else Reporting),
                 p.(conn := p.conn.(incoming := p.conn.incoming + Encode(c.reports[c.sent]))), startSent)
  {
    hide Encode, Body, Sendable, InFlight;
    if !p.outcome.Failed? {
      InFlightMore(c, p, c.(sent := c.sent + 1, phase := if c.sent + 1 == |c.reports| then Done else Reporting),
                   p.(conn := p.conn.(incoming := p.conn.incoming + Encode(c.reports[c.sent]))));
    }
  }

  lemma UpStarted(c: Ctrl, p: Peer, conn: Conn)
    requires UpOk(c, p, false) && conn.waiting.ForHeader? && conn.incoming == p.conn.incoming
    ensures UpOk(c, p.(conn := conn), true)
  {
    hide Encode, Body, Sendable;
  }

  lemma DownStarted(down: seq<Message>, c: Ctrl, out: bytes)
    requires |down| == 3 && DownOk(down, 2, c, out)
    ensures DownOk(down, 3, c, out + Encode(down[2]))
  {
    hide Encode, Body, Sendable;
    var k := |c.received|;
    match c.header {
      case None => StreamLonger(down, k, 2);
      case Some(_) =>
        if k < 2 {
          StreamLonger(down, k + 1, 2);
        }
    }
  }

  lemma DownGreeted(w: Workload, i: nat)
    requires i < |w.profiles| == |w.hosts|
    ensures DownOk(Down(w, i), 2, NEW_CTRL, Greeted(w, i).outgoing)
  {
    hide Encode, Body;
    var down := Down(w, i);
    assert down[..0] == [] && down[0..2] == [down[0], down[1]];
    StreamHead(down, 0, 2);
    StreamHead(down, 1, 2);
    StreamEmpty(down, 2);
  }

  // ---------- counting ----------

  lemma CountsUpdate(peers: seq<Peer>, i: nat, p: Peer)
    requires i < |peers|
    ensures CountDone(peers[i := p]) == CountDone(peers)
              - (if peers[i].outcome.Pending? then 0 else 1) + (if p.outcome.Pending? then 0 else 1)
    ensures CountFailed(peers[i := p]) == CountFailed(peers)
              - (if peers[i].outcome.Failed? then 1 else 0) + (if p.outcome.Failed? then 1 else 0)
  {
    var n := |peers| - 1;
    if i < n {
      assert peers[i := p][..n] == peers[..n][i := p];
      CountsUpdate(peers[..n], i, p);
    } else {
      assert peers[i := p][..n] == peers[..n];
    }
  }

  lemma CountsBound(peers: seq<Peer>)
    ensures CountFailed(peers) <= CountDone(peers) <= |peers|
    ensures CountDone(peers) == |peers| <==> forall i :: 0 <= i < |peers| ==> !peers[i].outcome.Pending?
  {
    if peers != [] {
      var n := |peers| - 1;
      CountsBound(peers[..n]);
      assert forall i :: 0 <= i < n ==> peers[..n][i] == peers[i];
    }
  }

  lemma CountsSame(peers: seq<Peer>, peers': seq<Peer>)
    requires |peers| == |peers'|
    requires forall i :: 0 <= i < |peers| ==> peers[i].outcome == peers'[i].outcome
    ensures CountDone(peers) == CountDone(peers') && CountFailed(peers) == CountFailed(peers')
  {
    if peers != [] {
      CountsSame(peers[..|peers| - 1], peers'[..|peers'| - 1]);
    }
  }

  // ---------- every action keeps the invariant ----------

  lemma DownSendable(w: Workload, i: nat)
    requires WellFormed(w) && i < w.nodes
    ensures forall k :: 0 <= k < 3 ==> Sendable(Down(w, i)[k]) && Opcode(Down(w, i)[k]) == k + 1
  {
  }

  // one controller's link and the counts change, nothing else
  lemma LinkReplaced(w: Workload, s: Sys, i: nat, c: Ctrl, p: Peer, t: Sys)
    requires WellFormed(w) && LinksOk(w, s) && i < |s.ctrls|
    requires LinkOk(w, s.m.startSent, i, c, p)
    requires t.ctrls == s.ctrls[i := c] && t.m.peers == s.m.peers[i := p] && t.m.startSent == s.m.startSent
    ensures LinksOk(w, t)
  {
    hide LinkOk, WellFormed;
  }

  // the outcome of controller i is as before, and so are the counts
  lemma CountsKept(w: Workload, s: Sys, i: nat, p: Peer, t: Sys)
    requires CountsOk(w, s) && i < |s.m.peers| && p.outcome == s.m.peers[i].outcome
    requires t.m == s.m.(peers := s.m.peers[i := p]) && t.timedOut == s.timedOut
    ensures CountsOk(w, t)
  {
    CountsUpdate(s.m.peers, i, p);
  }

  lemma CountsFinished(w: Workload, s: Sys, i: nat, p: Peer, t: Sys)
    requires CountsOk(w, s) && !s.m.stopped && i < |s.m.peers| <= w.nodes
    requires s.m.peers[i].outcome.Pending? && !p.outcome.Pending?
    requires t.m == ControllerFinished(w, s.m.(peers := s.m.peers[i := p],
                                               failed := s.m.failed + if p.outcome.Failed? then 1 else 0))
    requires t.timedOut == s.timedOut
    ensures CountsOk(w, t)
  {
    CountsUpdate(s.m.peers, i, p);
  }

  lemma InvCtrlReads(w: Workload, s: Sys, a: Action)
    requires WellFormed(w) && Inv(w, s) && Enabled(w, s, a) && (a.CtrlHeader? || a.CtrlBody?)
    ensures Inv(w, Apply(w, s, a))
  {
    hide UpOk, Encode, Body, Sendable, FromBits, StartMessage;
    var i := a.i;
    var c, p, n := s.ctrls[i], s.m.peers[i], SentDown(s.m.startSent);
    assert LinkOk(w, s.m.startSent, i, c, p);
    DownSendable(w, i);
    var (c', out) := if a.CtrlHeader? then CtrlReadHeader(c, Out(s, i)) else CtrlReadBody(c, Out(s, i));
    if a.CtrlHeader? {
      DownRead(Down(w, i), n, c, Out(s, i));
    } else {
      DownDecoded(Down(w, i), n, c, Out(s, i));
    }
    UpUnread(c, p, c', out, s.m.startSent);
    var p' := p.(conn := p.conn.(outgoing := out));
    LinkReplaced(w, s, i, c', p', Apply(w, s, a));
    CountsKept(w, s, i, p', Apply(w, s, a));
  }

  // reading from the master changes nothing on the way back
  lemma UpUnread(c: Ctrl, p: Peer, c': Ctrl, out: bytes, startSent: bool)
    requires UpOk(c, p, startSent) && c.phase.Awaiting?
    requires c' == c.(phase := c'.phase, header := c'.header, received := c'.received)
    requires c'.phase.Awaiting? || c'.phase.Running?
    ensures UpOk(c', p.(conn := p.conn.(outgoing := out)), startSent)
  {
    hide Encode, Body, Sendable;
  }

  // a step of controller i, or of the master on its connection, that counts nobody
  lemma InvLink(w: Workload, s: Sys, i: nat, c: Ctrl, p: Peer, t: Sys)
    requires WellFormed(w) && Inv(w, s) && i < |s.ctrls| && LinkOk(w, s.m.startSent, i, c, p)
    requires |s.ctrls| == |s.m.peers| && p.outcome == s.m.peers[i].outcome
    requires t == s.(ctrls := s.ctrls[i := c], m := s.m.(peers := s.m.peers[i := p]))
    ensures Inv(w, t)
  {
    hide LinkOk, WellFormed, LinksOk, CountsOk;
    assert LinksOk(w, s) && CountsOk(w, s);
    LinkReplaced(w, s, i, c, p, t);
    CountsKept(w, s, i, p, t);
  }

  lemma LinkOf(w: Workload, s: Sys, i: nat)
    requires WellFormed(w) && Inv(w, s) && i < |s.ctrls|
    ensures |s.ctrls| == |s.m.peers| && i < |w.profiles| == |w.hosts|
    ensures DownOk(Down(w, i), SentDown(s.m.startSent), s.ctrls[i], s.m.peers[i].conn.outgoing)
    ensures UpOk(s.ctrls[i], s.m.peers[i], s.m.startSent)
    ensures s.ctrls[i].sent > 0 || s.ctrls[i].phase.Reporting? ==> Readable(w, s.ctrls[i].reports)
  {
    hide DownOk, UpOk, Sendable, StartMessage, CountsOk;
    assert LinkOk(w, s.m.startSent, i, s.ctrls[i], s.m.peers[i]);
  }

  lemma InvCtrlMoves(w: Workload, s: Sys, a: Action)
    requires WellFormed(w) && Inv(w, s) && Enabled(w, s, a) && (a.Run? || a.SendNext? || a.Die?)
    ensures Inv(w, Apply(w, s, a))
  {
    hide Encode, Body, Sendable, StartMessage, HandleAccept, UpOk, ReportsOk, Readable, Inv, WellFormed;
    var i, t := a.i, Apply(w, s, a);
    var c, p := s.ctrls[i], s.m.peers[i];
    LinkOf(w, s, i);
    if a.SendNext? {
      UpSent(c, p, s.m.startSent);
    } else if a.Die? {
      UpDied(c, p, a.keep, s.m.startSent);
    } else {
      UpRun(c, p, a.reports, s.m.startSent);
    }
    InvLink(w, s, i, t.ctrls[i], t.m.peers[i], t);
  }

  lemma UpDied(c: Ctrl, p: Peer, keep: nat, startSent: bool)
    requires UpOk(c, p, startSent) && keep <= |p.conn.incoming| && !c.phase.Dead?
    ensures UpOk(c.(phase := Dead), p.(conn := p.conn.(incoming := p.conn.incoming[..keep])), startSent)
  {
    hide Encode, Body, Sendable, Stream, InFlight;
    InFlightCut(c, p, keep);
  }

  lemma InFlightCut(c: Ctrl, p: Peer, keep: nat)
    requires InFlight(c, p) && keep <= |p.conn.incoming|
    ensures InFlight(c.(phase := Dead), p.(conn := p.conn.(incoming := p.conn.incoming[..keep])))
  {
    hide Encode, Body, Sendable, Stream, Flight;
  }

  lemma UpRun(c: Ctrl, p: Peer, reports: seq<Message>, startSent: bool)
    requires UpOk(c, p, startSent) && c.phase.Running? && ReportsOk(reports)
    ensures UpOk(c.(phase := Reporting, reports := reports), p, startSent)
  {
    hide Encode, Body, Sendable;
  }

  lemma InvMasterHeader(w: Workload, s: Sys, i: nat)
    requires WellFormed(w) && Inv(w, s) && Enabled(w, s, MasterHeader(i))
    ensures Inv(w, Apply(w, s, MasterHeader(i)))
  {
    hide Encode, Body, Sendable, StartMessage, FromBits, UpOk, KnownType, Readable, WellFormed;
    var t := Apply(w, s, MasterHeader(i));
    var c, p := s.ctrls[i], s.m.peers[i];
    LinkOf(w, s, i);
    UpHeader(c, p, s.m.startSent);
    NextHeader(c, p, s.m.startSent);
    var p' := t.m.peers[i];
    if p'.outcome.Pending? {
      InvLink(w, s, i, c, p', t);
    } else {
      LinkReplaced(w, s, i, c, p', t);
      CountsFinished(w, s, i, p', t);
    }
  }

  lemma InvMasterBody(w: Workload, s: Sys, i: nat)
    requires WellFormed(w) && Inv(w, s) && Enabled(w, s, MasterBody(i))
    ensures Inv(w, Apply(w, s, MasterBody(i)))
  {
    hide Encode, Body, Sendable, StartMessage, FromBits, UpOk, KnownType, WellFormed, Inv;
    var t := Apply(w, s, MasterBody(i));
    var c, p := s.ctrls[i], s.m.peers[i];
    LinkOf(w, s, i);
    UpBody(c, p, s.m.startSent);
    InvLink(w, s, i, c, t.m.peers[i], t);
  }

  lemma NextPending(c: Ctrl, p: Peer, startSent: bool)
    requires UpOk(c, p, startSent) && !p.conn.waiting.Idle?
    ensures p.outcome.Pending?
  {
  }

  lemma StillAbandoned(c: Ctrl, p: Peer, p': Peer)
    requires InFlight(c, p) && p.outcome.Pending? && p' == p.(outcome := Failed, conn := p.conn.(waiting := Idle))
    ensures Abandoned(c, p')
  {
    hide Encode, Body, Sendable, Flight;
    assert InFlight(c, WaitingAs(p', p.conn.waiting));
  }

  lemma InvMasterLost(w: Workload, s: Sys, i: nat)
    requires WellFormed(w) && Inv(w, s) && Enabled(w, s, MasterLost(i))
    ensures Inv(w, Apply(w, s, MasterLost(i)))
  {
    hide Encode, Body, Sendable, StartMessage;
    var t := Apply(w, s, MasterLost(i));
    var c, p := s.ctrls[i], s.m.peers[i];
    assert LinkOk(w, s.m.startSent, i, c, p);
    var p' := p.(outcome := Failed, conn := p.conn.(waiting := Idle));
    StillAbandoned(c, p, p');
    LinkReplaced(w, s, i, c, p', t);
    CountsFinished(w, s, i, p', t);
  }

  lemma CountsAppend(peers: seq<Peer>, p: Peer)
    requires p.outcome.Pending?
    ensures CountDone(peers + [p]) == CountDone(peers) && CountFailed(peers + [p]) == CountFailed(peers)
  {
    assert (peers + [p])[..|peers|] == peers;
  }

  // the controllers after an accept, before any start message
  lemma LinksGreeted(w: Workload, s: Sys, k: nat)
    requires WellFormed(w) && LinksOk(w, s) && |s.ctrls| < w.nodes && k <= |s.ctrls|
    ensures var peers := s.m.peers + [Peer(Greeted(w, |s.m.peers|), [], Pending)];
            LinkOk(w, false, k, (s.ctrls + [NEW_CTRL])[k], peers[k])
  {
    hide Encode, Body, Sendable, DownOk, StartMessage;
    if k == |s.ctrls| {
      DownGreeted(w, k);
      assert Stream([]) == [];
    } else {
      assert LinkOk(w, false, k, s.ctrls[k], s.m.peers[k]);
    }
  }

  lemma LinkStarted(w: Workload, i: nat, c: Ctrl, p: Peer)
    requires i < |w.profiles| == |w.hosts| && LinkOk(w, false, i, c, p)
    ensures LinkOk(w, true, i, c, Started(w, p, i))
  {
    hide Encode, Body, Sendable, DownOk, UpOk, StartMessage;
    DownStarted(Down(w, i), c, p.conn.outgoing);
    UpStarted(c, p, Wait(Send(p.conn, StartMessage(w.duration, w.hosts, i))));
  }

  lemma CountsAccepted(w: Workload, s: Sys)
    requires |s.ctrls| == |s.m.peers| < w.nodes && CountsOk(w, s) && Enabled(w, s, Accept)
    ensures CountsOk(w, Apply(w, s, Accept))
  {
    hide Encode, Send, StartMessage, Greeted, CountDone, CountFailed, ReportsOk, Readable, HeaderReady, BodyReady;
    var peers := s.m.peers + [Peer(Greeted(w, |s.m.peers|), [], Pending)];
    CountsAppend(s.m.peers, peers[|s.m.peers|]);
    CountsSame(peers, Apply(w, s, Accept).m.peers);
  }

  lemma InvAccept(w: Workload, s: Sys)
    requires WellFormed(w) && Inv(w, s) && Enabled(w, s, Accept)
    ensures Inv(w, Apply(w, s, Accept))
  {
    hide Encode, Body, Sendable, LinkOk, StartMessage, CountsOk, Started, Greeted;
    var t := Apply(w, s, Accept);
    var peers := s.m.peers + [Peer(Greeted(w, |s.m.peers|), [], Pending)];
    CountsAccepted(w, s);
    forall i | 0 <= i < |t.ctrls| ensures LinkOk(w, t.m.startSent, i, t.ctrls[i], t.m.peers[i]) {
      LinksGreeted(w, s, i);
      if t.m.startSent {
        LinkStarted(w, i, t.ctrls[i], peers[i]);
      }
    }
  }

  lemma InvApply(w: Workload, s: Sys, a: Action)
    requires WellFormed(w) && Inv(w, s) && Enabled(w, s, a)
    ensures Inv(w, Apply(w, s, a))
  {
    hide LinkOk, WellFormed;
    match a {
      case Accept => InvAccept(w, s);
      case CtrlHeader(_) => InvCtrlReads(w, s, a);
      case CtrlBody(_) => InvCtrlReads(w, s, a);
      case MasterHeader(i) => InvMasterHeader(w, s, i);
      case MasterBody(i) => InvMasterBody(w, s, i);
      case MasterLost(i) => InvMasterLost(w, s, i);
      case Timeout =>
      case _ => InvCtrlMoves(w, s, a);
    }
  }

  lemma InvStart(w: Workload)
    requires WellFormed(w)
    ensures Inv(w, NEW_SYS)
  {
  }

  lemma {:induction false} InvHolds(w: Workload, run: seq<Sys>)
    requires WellFormed(w) && IsRun(w, run)
    ensures Inv(w, run[|run| - 1])
    decreases |run|
  {
    hide LinkOk, WellFormed, Apply, Enabled;
    if |run| == 1 {
      InvStart(w);
    } else {
      var s, t := run[|run| - 2], run[|run| - 1];
      assert IsRun(w, run[..|run| - 1]);
      InvHolds(w, run[..|run| - 1]);
      assert t == run[(|run| - 2) + 1];
      assert Moves(w, s, t);
      var a :| Enabled(w, s, a) && t == Apply(w, s, a);
      InvApply(w, s, a);
    }
  }

  // ---------- what holds in every reachable state ----------

  lemma ReachableInv(w: Workload, s: Sys)
    requires WellFormed(w) && Reachable(w, s)
    ensures Inv(w, s)
  {
    var run :| IsRun(w, run) && run[|run| - 1] == s;
    InvHolds(w, run);
  }

  /** Neither side ever meets a message it does not expect. */
  lemma NeverConfused(w: Workload, s: Sys)
    requires WellFormed(w) && Reachable(w, s)
    ensures !s.m.crashed && forall i :: 0 <= i < |s.ctrls| ==> !s.ctrls[i].phase.Confused?
  {
    ReachableInv(w, s);
    forall i | 0 <= i < |s.ctrls| ensures !s.ctrls[i].phase.Confused? {
      assert LinkOk(w, s.m.startSent, i, s.ctrls[i], s.m.peers[i]);
    }
  }

  /** A controller that runs has read its DHT type, its own profile and its own start message,
      and runs only once every controller has been accepted. */
  lemma StartsTogether(w: Workload, s: Sys, i: nat)
    requires WellFormed(w) && Reachable(w, s) && i < |s.ctrls|
    requires s.ctrls[i].phase.Running? || s.ctrls[i].phase.Reporting? || s.ctrls[i].phase.Done?
    ensures |s.ctrls| == w.nodes
    ensures s.ctrls[i].received ==
            [DhtType(w.dhtType), w.profiles[i], StartMessage(w.duration, w.hosts, i)]
  {
    hide Encode, Body, UpOk, Sendable, StartMessage;
    ReachableInv(w, s);
    assert LinkOk(w, s.m.startSent, i, s.ctrls[i], s.m.peers[i]);
    assert Down(w, i)[..3] == Down(w, i);
  }

  /** A controller counted as finished and not failed has had its six reports pushed, in the
      order in which it sent them. */
  lemma CompletedReported(w: Workload, s: Sys, i: nat)
    requires WellFormed(w) && Reachable(w, s) && i < |s.ctrls| && i < |s.m.peers|
    requires s.m.peers[i].outcome.Completed?
    ensures |s.m.peers[i].results| == 6 && ReportsOk(s.ctrls[i].reports)
    ensures forall k :: 0 <= k < 6 ==>
              s.m.peers[i].results[k] == Pushed(REPORTS[k], s.ctrls[i].reports[k].value)
  {
    hide Encode, Body, DownOk, Sendable, StartMessage;
    ReachableInv(w, s);
    assert LinkOk(w, s.m.startSent, i, s.ctrls[i], s.m.peers[i]);
  }

  lemma CompletedDrained(c: Ctrl, p: Peer, startSent: bool)
    requires UpOk(c, p, startSent)
    ensures p.outcome.Completed? ==> p.conn.incoming == []
  {
    hide Encode, Body, Sendable;
    if p.outcome.Completed? {
      StreamEmpty(c.reports, 7);
    }
  }

  /** The bytes under way, in both directions, are exactly the unread rest of what was sent, up to
      what a controller took with it when it died; a completed controller has left none. */
  lemma BytesUnderWay(w: Workload, s: Sys, i: nat)
    requires WellFormed(w) && Reachable(w, s) && i < |s.ctrls|
    ensures i < |s.m.peers| && i < |w.profiles| == |w.hosts|
    ensures DownOk(Down(w, i), if s.m.startSent then 3 else 2, s.ctrls[i], s.m.peers[i].conn.outgoing)
    ensures UpOk(s.ctrls[i], s.m.peers[i], s.m.startSent)
    ensures s.m.peers[i].outcome.Completed? ==> s.m.peers[i].conn.incoming == []
  {
    hide DownOk, UpOk, Sendable, StartMessage;
    ReachableInv(w, s);
    assert LinkOk(w, s.m.startSent, i, s.ctrls[i], s.m.peers[i]);
    CompletedDrained(s.ctrls[i], s.m.peers[i], s.m.startSent);
  }

  /** Each controller is counted at most once, over every interleaving of reports, finishes,
      disconnections and the timeout: a read is outstanding exactly for those not counted. */
  lemma CountedOnce(w: Workload, s: Sys)
    requires WellFormed(w) && Reachable(w, s)
    ensures s.m.finished == CountDone(s.m.peers) && s.m.failed == CountFailed(s.m.peers)
    ensures s.m.startSent ==> forall i :: 0 <= i < |s.m.peers| ==>
              (!s.m.peers[i].conn.waiting.Idle? <==> s.m.peers[i].outcome.Pending?)
    ensures !s.timedOut ==> (s.m.stopped <==>
              |s.m.peers| == w.nodes && forall i :: 0 <= i < |s.m.peers| ==> !s.m.peers[i].outcome.Pending?)
  {
    hide Encode, Body, DownOk, Sendable, StartMessage, InFlight;
    ReachableInv(w, s);
    CountsBound(s.m.peers);
    forall i | 0 <= i < |s.m.peers| && s.m.startSent
      ensures !s.m.peers[i].conn.waiting.Idle? <==> s.m.peers[i].outcome.Pending?
    {
      assert LinkOk(w, s.m.startSent, i, s.ctrls[i], s.m.peers[i]);
    }
  }

  ghost function WithOutcome(peers: seq<Peer>, outcome: Outcome): set<nat> {
    set i: nat | i < |peers| && peers[i].outcome == outcome
  }

  lemma {:induction false} CountsAreControllers(peers: seq<Peer>)
    ensures CountFailed(peers) == |WithOutcome(peers, Failed)|
    ensures CountDone(peers) == |WithOutcome(peers, Failed)| + |WithOutcome(peers, Completed)|
  {
    if peers == [] {
      assert WithOutcome(peers, Failed) == {} && WithOutcome(peers, Completed) == {};
    } else {
      var n := |peers| - 1;
      CountsAreControllers(peers[..n]);
      WithOutcomeMore(peers, Failed);
      WithOutcomeMore(peers, Completed);
    }
  }

  lemma WithOutcomeMore(peers: seq<Peer>, outcome: Outcome)
    requires peers != []
    ensures var n := |peers| - 1;
            |WithOutcome(peers, outcome)|
            == |WithOutcome(peers[..n], outcome)| + if peers[n].outcome == outcome then 1 else 0
  {
    var n := |peers| - 1;
    assert WithOutcome(peers, outcome)
        == WithOutcome(peers[..n], outcome) + if peers[n].outcome == outcome then {n} else {};
  }

  /** Published as finished are the completed controllers, as failed those that were lost, and as
      unfinished all others; the three add up to the nodes. */
  lemma StatusAddsUp(w: Workload, s: Sys)
    requires WellFormed(w) && Reachable(w, s)
    ensures var (finished, failed, unfinished) := NodesStatus(w, s.m);
            && finished == |WithOutcome(s.m.peers, Completed)| && failed == |WithOutcome(s.m.peers, Failed)|
            && unfinished >= 0 && finished + failed + unfinished == w.nodes
  {
    ReachableInv(w, s);
    CountsBound(s.m.peers);
    CountsAreControllers(s.m.peers);
  }

  lemma DoneIsReadable(c: Ctrl, p: Peer)
    requires UpOk(c, p, true) && p.outcome.Pending?
    ensures !p.conn.waiting.Idle?
    ensures c.phase.Done? ==> HeaderReady(p.conn) || BodyReady(p.conn)
  {
    hide Encode, Body, Sendable;
    if c.phase.Done? && p.conn.waiting.ForHeader? {
      StreamHead(c.reports, Handled(p), 7);
    }
  }

  /** Nothing gets stuck: when a controller is done or gone, the master can act on it until it is
      counted. */
  lemma MasterCanAct(w: Workload, s: Sys, i: nat)
    requires WellFormed(w) && Reachable(w, s) && i < |s.ctrls| && i < |s.m.peers|
    requires s.m.startSent && !s.m.stopped && s.m.peers[i].outcome.Pending?
    requires s.ctrls[i].phase.Done? || s.ctrls[i].phase.Dead?
    ensures Enabled(w, s, MasterHeader(i)) || Enabled(w, s, MasterBody(i)) || Enabled(w, s, MasterLost(i))
  {
    hide DownOk, UpOk, WellFormed, Reachable, Inv, ReportsOk, Readable;
    ReachableInv(w, s);
    LinkOf(w, s, i);
    DoneIsReadable(s.ctrls[i], s.m.peers[i]);
  }
}
