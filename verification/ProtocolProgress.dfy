/** Every interleaving of the protocol comes to an end, and not before the master has stopped. */
module ProtocolProgress {
  import opened Codec
  import opened Connection
  import opened StartMessages
  import opened Master
  import opened Protocol
  import opened ControllerLink

  // ---------- a measure that falls on every action ----------

  /** What a controller can still do, its death included. */
  function CtrlRank(c: Ctrl): nat {
    match c.phase
    case Awaiting => 10 + 2 * (if |c.received| < 3 then 3 - |c.received| else 0) - (if c.header.Some? then 1 else 0)
    case Running => 9
    case Reporting => 1 + if c.sent < |c.reports| then |c.reports| - c.sent else 0
    case Done => 1
    case Confused => 1
    case Dead => 0
  }

  /** What the master can still do for a controller. */
  function PeerRank(p: Peer): nat {
    if !p.outcome.Pending? then 0
    else 2 + 2 * (if Handled(p) < 7 then 7 - Handled(p) else 0) - (if p.conn.waiting.ForBody? then 1 else 0)
  }

  function LinksRank(ctrls: seq<Ctrl>, peers: seq<Peer>): nat
    requires |ctrls| == |peers|
  {
    if ctrls == [] then 0
    else
      var n := |ctrls| - 1;
      LinksRank(ctrls[..n], peers[..n]) + CtrlRank(ctrls[n]) + PeerRank(peers[n])
  }

  const LINK_RANK: nat := 32

  function Rank(w: Workload, s: Sys): nat {
    if |s.ctrls| != |s.m.peers| then 0
    else
      (if |s.ctrls| < w.nodes then (LINK_RANK + 1) * (w.nodes - |s.ctrls|) else 0)
        + LinksRank(s.ctrls, s.m.peers) + if s.m.stopped then 0 else 1
  }

  lemma {:induction false} LinksRankUpdate(ctrls: seq<Ctrl>, peers: seq<Peer>, i: nat, c: Ctrl, p: Peer)
    requires i < |ctrls| == |peers|
    ensures LinksRank(ctrls[i := c], peers[i := p]) == LinksRank(ctrls, peers)
              - CtrlRank(ctrls[i]) - PeerRank(peers[i]) + CtrlRank(c) + PeerRank(p)
    decreases |ctrls|
  {
    hide CtrlRank, PeerRank;
    var n := |ctrls| - 1;
    if i < n {
      assert ctrls[i := c][..n] == ctrls[..n][i := c] && peers[i := p][..n] == peers[..n][i := p];
      LinksRankUpdate(ctrls[..n], peers[..n], i, c, p);
    } else {
      assert ctrls[i := c][..n] == ctrls[..n] && peers[i := p][..n] == peers[..n];
    }
  }

  lemma {:induction false} LinksRankSame(ctrls: seq<Ctrl>, peers: seq<Peer>, peers': seq<Peer>)
    requires |ctrls| == |peers| == |peers'|
    requires forall i :: 0 <= i < |peers| ==> PeerRank(peers'[i]) == PeerRank(peers[i])
    ensures LinksRank(ctrls, peers') == LinksRank(ctrls, peers)
    decreases |ctrls|
  {
    if ctrls != [] {
      hide CtrlRank, PeerRank;
      var n := |ctrls| - 1;
      LinksRankSame(ctrls[..n], peers[..n], peers'[..n]);
    }
  }

  lemma LinksRankAppend(ctrls: seq<Ctrl>, peers: seq<Peer>, c: Ctrl, p: Peer)
    requires |ctrls| == |peers|
    ensures LinksRank(ctrls + [c], peers + [p]) == LinksRank(ctrls, peers) + CtrlRank(c) + PeerRank(p)
  {
    var n := |ctrls|;
    assert (ctrls + [c])[..n] == ctrls && (peers + [p])[..n] == peers;
  }

  // a step of one controller or of the master on one connection
  lemma RankOfLink(w: Workload, s: Sys, i: nat, c: Ctrl, p: Peer, t: Sys)
    requires i < |s.ctrls| == |s.m.peers|
    requires t.ctrls == s.ctrls[i := c] && t.m.peers == s.m.peers[i := p] && (s.m.stopped ==> t.m.stopped)
    requires CtrlRank(c) + PeerRank(p) < CtrlRank(s.ctrls[i]) + PeerRank(s.m.peers[i])
    ensures Rank(w, t) < Rank(w, s)
  {
    hide CtrlRank, PeerRank;
    LinksRankUpdate(s.ctrls, s.m.peers, i, c, p);
  }

  lemma CtrlReadFalls(c: Ctrl, out: bytes)
    requires c.phase.Awaiting? && |c.received| < 3
    ensures c.header.None? && |out| >= HEADER_SIZE ==> CtrlRank(CtrlReadHeader(c, out).0) < CtrlRank(c)
    ensures c.header.Some? && |out| >= c.header.value ==> CtrlRank(CtrlReadBody(c, out).0) < CtrlRank(c)
  {
    hide FromBits, Number32;
  }

  lemma RankOfRead(w: Workload, s: Sys, a: Action)
    requires WellFormed(w) && Inv(w, s) && Enabled(w, s, a) && (a.CtrlHeader? || a.CtrlBody?)
    ensures Rank(w, Apply(w, s, a)) < Rank(w, s)
  {
    hide UpOk, Encode, Body, Sendable, FromBits, Number32, StartMessage, CtrlRank, Rank, CtrlReadHeader, CtrlReadBody;
    var i, t := a.i, Apply(w, s, a);
    var c := s.ctrls[i];
    assert LinkOk(w, s.m.startSent, i, c, s.m.peers[i]);
    CtrlReadFalls(c, Out(s, i));
    RankOfLink(w, s, i, t.ctrls[i], t.m.peers[i], t);
  }

  lemma RankOfMove(w: Workload, s: Sys, a: Action)
    requires |s.ctrls| == |s.m.peers| && Enabled(w, s, a) && (a.Run? || a.SendNext? || a.Die?)
    ensures Rank(w, Apply(w, s, a)) < Rank(w, s)
  {
    hide Encode, Sendable, Readable, Rank;
    var i, t := a.i, Apply(w, s, a);
    RankOfLink(w, s, i, t.ctrls[i], t.m.peers[i], t);
  }

  lemma HeaderFalls(c: Ctrl, p: Peer, startSent: bool)
    requires UpOk(c, p, startSent) && HeaderReady(p.conn)
    ensures var (conn, early) := HeaderRead(p.conn);
            p.outcome.Pending? && (early.Some? ==> early.value == Ok(Finish))
            && PeerRank(p.(conn := conn, outcome := Completed)) < PeerRank(p)
            && (early.None? ==> PeerRank(p.(conn := conn)) < PeerRank(p))
  {
    hide FromBits, Encode, Body, Stream, UpOk;
    UpHeader(c, p, startSent);
    NextPending(c, p, startSent);
  }

  lemma RankOfMasterHeader(w: Workload, s: Sys, i: nat)
    requires WellFormed(w) && Inv(w, s) && Enabled(w, s, MasterHeader(i))
    ensures Rank(w, Apply(w, s, MasterHeader(i))) < Rank(w, s)
  {
    hide UpOk, DownOk, Rank, CtrlRank, Readable, Inv, WellFormed, HeaderRead, HeaderReady;
    var t := Apply(w, s, MasterHeader(i));
    LinkOf(w, s, i);
    var p := s.m.peers[i];
    HeaderFalls(s.ctrls[i], p, s.m.startSent);
    var (conn, early) := HeaderRead(p.conn);
    assert t.m.peers[i] == if early.Some? then p.(conn := conn, outcome := Completed) else p.(conn := conn);
    RankOfLink(w, s, i, s.ctrls[i], t.m.peers[i], t);
  }

  lemma RankOfMasterBody(w: Workload, s: Sys, i: nat)
    requires WellFormed(w) && Inv(w, s) && Enabled(w, s, MasterBody(i))
    ensures Rank(w, Apply(w, s, MasterBody(i))) < Rank(w, s)
  {
    hide Encode, Body, FromBits, UpOk, DownOk, KnownType, Rank, CtrlRank, Inv, WellFormed, Stream, ReportsOk;
    var t := Apply(w, s, MasterBody(i));
    var c, p := s.ctrls[i], s.m.peers[i];
    LinkOf(w, s, i);
    UpBody(c, p, s.m.startSent);
    NextBody(c, p, s.m.startSent);
    RankOfLink(w, s, i, c, t.m.peers[i], t);
  }

  lemma RankOfLoss(w: Workload, s: Sys, i: nat)
    requires Enabled(w, s, MasterLost(i)) && s.m.peers[i].outcome.Pending?
    ensures Rank(w, Apply(w, s, MasterLost(i))) < Rank(w, s)
  {
    hide Rank, CtrlRank;
    var t := Apply(w, s, MasterLost(i));
    RankOfLink(w, s, i, s.ctrls[i], t.m.peers[i], t);
  }

  lemma IdleBeforeStart(w: Workload, s: Sys, i: nat)
    requires WellFormed(w) && Inv(w, s) && !s.m.startSent && i < |s.ctrls|
    ensures s.m.peers[i].conn.waiting.Idle?
  {
    hide DownOk, InFlight, Abandoned, Readable, ReportsOk, Sendable, Body, Stream, StartMessage;
    assert LinkOk(w, false, i, s.ctrls[i], s.m.peers[i]);
  }

  lemma StartedRank(w: Workload, p: Peer, i: nat)
    requires i < |w.hosts| && !p.conn.waiting.ForBody?
    ensures PeerRank(Started(w, p, i)) == PeerRank(p)
  {
    hide StartMessage, Encode;
  }

  lemma RankOfAccept(w: Workload, s: Sys)
    requires WellFormed(w) && Inv(w, s) && Enabled(w, s, Accept)
    ensures Rank(w, Apply(w, s, Accept)) < Rank(w, s)
  {
    hide StartMessage, Encode, Sendable, LinkOk, PeerRank, WellFormed, Started;
    var t, n := Apply(w, s, Accept), |s.m.peers|;
    var peers := s.m.peers + [Peer(Greeted(w, n), [], Pending)];
    assert PeerRank(peers[n]) <= 16 by {
      NewRank(w, n);
    }
    LinksRankAppend(s.ctrls, s.m.peers, NEW_CTRL, peers[n]);
    forall i | 0 <= i < |peers| && n + 1 == w.nodes ensures PeerRank(Started(w, peers[i], i)) == PeerRank(peers[i]) {
      if i < n {
        IdleBeforeStart(w, s, i);
      } else {
        NewRank(w, n);
      }
      StartedRank(w, peers[i], i);
    }
    LinksRankSame(t.ctrls, peers, t.m.peers);
  }

  lemma NewRank(w: Workload, i: nat)
    requires i < |w.profiles|
    ensures PeerRank(Peer(Greeted(w, i), [], Pending)) <= 16 && Greeted(w, i).waiting.Idle?
  {
    hide Encode;
  }

  /** Every action, of the master or of a controller, lowers the measure. */
  lemma RankFalls(w: Workload, s: Sys, a: Action)
    requires WellFormed(w) && Inv(w, s) && Enabled(w, s, a)
    ensures |Apply(w, s, a).ctrls| == |Apply(w, s, a).m.peers|
    ensures Rank(w, Apply(w, s, a)) < Rank(w, s)
  {
    hide Rank, WellFormed, LinkOk, UpOk;
    InvApply(w, s, a);
    match a {
      case Accept => RankOfAccept(w, s);
      case CtrlHeader(_) => RankOfRead(w, s, a);
      case CtrlBody(_) => RankOfRead(w, s, a);
      case MasterHeader(i) => RankOfMasterHeader(w, s, i);
      case MasterBody(i) => RankOfMasterBody(w, s, i);
      case MasterLost(i) =>
        LinkPending(w, s, i);
        RankOfLoss(w, s, i);
      case Timeout => TimeoutFalls(w, s);
      case _ => RankOfMove(w, s, a);
    }
  }

  lemma LinkPending(w: Workload, s: Sys, i: nat)
    requires WellFormed(w) && Inv(w, s) && i < |s.ctrls| && !s.m.peers[i].conn.waiting.Idle?
    ensures s.m.peers[i].outcome.Pending?
  {
    hide UpOk, DownOk, Sendable, StartMessage;
    assert LinkOk(w, s.m.startSent, i, s.ctrls[i], s.m.peers[i]);
    NextPending(s.ctrls[i], s.m.peers[i], s.m.startSent);
  }

  lemma TimeoutFalls(w: Workload, s: Sys)
    requires |s.ctrls| == |s.m.peers| && Enabled(w, s, Timeout)
    ensures Rank(w, Apply(w, s, Timeout)) < Rank(w, s)
  {
  }

  /** No run, however the actions interleave, is longer than a multiple of the number of nodes. */
  lemma {:induction false} RunsAreFinite(w: Workload, run: seq<Sys>)
    requires WellFormed(w) && IsRun(w, run)
    ensures var last := run[|run| - 1];
            |last.ctrls| == |last.m.peers| && |run| + Rank(w, last) <= 2 + (LINK_RANK + 1) * w.nodes
    decreases |run|
  {
    hide Rank, WellFormed, Apply, Enabled, LinkOk;
    if |run| == 1 {
      StartRank(w);
    } else {
      var before := run[..|run| - 1];
      var s, t := run[|run| - 2], run[|run| - 1];
      assert IsRun(w, before);
      RunsAreFinite(w, before);
      InvHolds(w, before);
      assert t == run[(|run| - 2) + 1];
      assert Moves(w, s, t);
      var a :| Enabled(w, s, a) && t == Apply(w, s, a);
      RankFalls(w, s, a);
    }
  }

  lemma StartRank(w: Workload)
    ensures Rank(w, NEW_SYS) == (LINK_RANK + 1) * w.nodes + 1
  {
  }

  // ---------- a run goes on until the master has stopped ----------

  /** Nothing can happen any more but deaths and the timeout. */
  ghost predicate Quiet(w: Workload, s: Sys) {
    forall a :: Enabled(w, s, a) ==> a.Die? || a.Timeout?
  }

  const NO_RESULTS: seq<bytes> := [[], [], [], [], [], []]

  lemma EmptyReportsOk(w: Workload)
    requires w.readable([])
    ensures ReportsOk(Written(NO_RESULTS)) && Readable(w, Written(NO_RESULTS))
  {
    hide ReportsOk, IsLatency;
    WrittenAsPromised(NO_RESULTS);
  }

  lemma AwaitingCanRead(w: Workload, s: Sys, i: nat)
    requires WellFormed(w) && Inv(w, s) && i < |s.ctrls| && s.m.startSent && s.ctrls[i].phase.Awaiting?
    ensures Enabled(w, s, CtrlHeader(i)) || Enabled(w, s, CtrlBody(i))
  {
    hide UpOk, Encode, Body, Sendable, StartMessage;
    var c := s.ctrls[i];
    assert LinkOk(w, true, i, c, s.m.peers[i]);
    if c.header.None? {
      StreamHead(Down(w, i), |c.received|, 3);
    }
  }

  lemma SenderCanSend(w: Workload, s: Sys, i: nat)
    requires WellFormed(w) && Inv(w, s) && i < |s.ctrls| && s.ctrls[i].phase.Reporting?
    ensures Enabled(w, s, SendNext(i))
  {
    hide DownOk, InFlight, Abandoned, Encode, Body, Sendable, StartMessage, Readable, Stream;
    assert LinkOk(w, s.m.startSent, i, s.ctrls[i], s.m.peers[i]);
  }

  lemma RunnerCanReport(w: Workload, s: Sys, i: nat)
    requires w.readable([]) && i < |s.ctrls| == |s.m.peers| && s.ctrls[i].phase.Running?
    ensures Enabled(w, s, Run(i, Written(NO_RESULTS)))
  {
    hide ReportsOk, Readable, Written;
    EmptyReportsOk(w);
  }

  lemma LinkCanAct(w: Workload, s: Sys, i: nat)
    requires WellFormed(w) && Reachable(w, s) && Quiet(w, s) && s.m.startSent && !s.m.stopped
    requires i < |s.ctrls| && i < |s.m.peers|
    ensures !s.m.peers[i].outcome.Pending?
  {
    hide LinkOk, Apply, Sendable, StartMessage, ReportsOk, Readable, Written, HeaderReady, BodyReady;
    ReachableInv(w, s);
    NeverConfused(w, s);
    var phase := s.ctrls[i].phase;
    if phase.Awaiting? {
      AwaitingCanRead(w, s, i);
    } else if phase.Running? {
      RunnerCanReport(w, s, i);
    } else if phase.Reporting? {
      SenderCanSend(w, s, i);
    } else if s.m.peers[i].outcome.Pending? {
      MasterCanAct(w, s, i);
    }
  }

  /** Unless the master has stopped, something other than a death or the timeout can happen: no
      run comes to rest before every controller is counted. */
  lemma QuietOnlyWhenStopped(w: Workload, s: Sys)
    requires WellFormed(w) && Reachable(w, s) && Quiet(w, s)
    ensures s.m.stopped && |s.ctrls| == w.nodes
    ensures !s.timedOut ==> s.m.finished == w.nodes
  {
    hide LinkOk, DownOk, UpOk, Apply;
    ReachableInv(w, s);
    assert !Enabled(w, s, Accept);
    if !s.m.stopped {
      forall i | 0 <= i < |s.m.peers| ensures !s.m.peers[i].outcome.Pending? {
        LinkCanAct(w, s, i);
      }
      CountsBound(s.m.peers);
    }
  }
}
