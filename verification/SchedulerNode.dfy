/** What the loop does to the DHT node: joins and leaves alternate, every operation is carried
    out in the right connection state, and every one of them is measured exactly once. */
module SchedulerNode {
  import opened Events
  import opened Scheduler
  import opened SchedulerOrder

  /** joins only, or puts, then gets (both while connected), then leaves */
  ghost predicate Shape(connected: bool, hand: seq<Event>) {
    || (forall e :: e in hand ==> e.JoinEvent?)
    || (&& (forall e :: e in hand ==> !e.JoinEvent?)
        && (forall i, j :: 0 <= i < j < |hand| && hand[i].LeaveEvent? ==> hand[j].LeaveEvent?)
        && (forall i, j :: 0 <= i < j < |hand| && hand[j].PutEvent? ==> hand[i].PutEvent?)
        && (!connected ==> forall e :: e in hand ==> e.LeaveEvent?))
  }

  function Moves(s: seq<Event>): seq<Event> {
    if s == [] then []
    else Moves(s[..|s| - 1]) + (if s[|s| - 1].JoinEvent? || s[|s| - 1].LeaveEvent? then [s[|s| - 1]] else [])
  }

  ghost predicate Alternates(s: seq<Event>) {
    forall i :: 0 <= i < |s| ==> if i % 2 == 0 then s[i].JoinEvent? else s[i].LeaveEvent?
  }

  ghost predicate Measured(n: Node, issued: seq<Event>) {
    && n.joinCount == n.joinHits + n.joinMisses
    && n.getCount == n.getHits + n.getMisses
    && n.joinHits == n.leaveCount + (if n.connected then 1 else 0)
    && n.joinHits == |Of(issued, Join)|
    && n.leaveCount == |Of(issued, Leave)|
    && n.putCount == |Of(issued, Put)|
    && n.getCount == |Of(issued, Get)|
    && n.misplaced == 0
  }

  ghost predicate NodeInv(s: State) {
    && Shape(s.node.connected, s.Hand())
    && Measured(s.node, s.issued)
    && Alternates(Moves(s.issued))
    && (s.node.connected <==> |Moves(s.issued)| % 2 == 1)
  }

  lemma OfAppend(s: seq<Event>, e: Event, op: Op)
    ensures |Of(s + [e], op)| == |Of(s, op)| + (if e.Kind() == op then 1 else 0)
  {
    OfConcat(s, [e], op);
    OfUniform([e], e.Kind(), op);
  }

  lemma MovesAppend(s: seq<Event>, e: Event)
    ensures Moves(s + [e]) == Moves(s) + (if e.JoinEvent? || e.LeaveEvent? then [e] else [])
  {
    assert (s + [e])[..|s|] == s;
  }

  lemma ShapeTail(connected: bool, hand: seq<Event>, connected': bool)
    requires Shape(connected, hand) && hand != [] && !WrongState(connected, hand[0])
    requires connected' == (if hand[0].JoinEvent? then true else if hand[0].LeaveEvent? then false else connected)
    ensures Shape(connected', hand[1..])
    ensures !connected ==> hand[0].JoinEvent?
  {
    assert forall e :: e in hand[1..] ==> e in hand;
    if hand[0].LeaveEvent? {
      assert forall j :: 0 < j < |hand| ==> hand[j].LeaveEvent?;
    }
  }

  lemma MeasuredAppend(n: Node, issued: seq<Event>, e: Event, n': Node)
    requires Measured(n, issued) && !WrongState(n.connected, e) && (n.connected || e.JoinEvent?)
    requires match e
             case JoinEvent(_) => n' == Joined(n)
             case LeaveEvent(_) => n' == Left(n)
             case PutEvent(_, _, _) => n' == Stored(n)
             case GetEvent(_, _) => n' == Fetched(n, true) || n' == Fetched(n, false)
    ensures Measured(n', issued + [e])
  {
    OfAppend(issued, e, Join);
    OfAppend(issued, e, Leave);
    OfAppend(issued, e, Put);
    OfAppend(issued, e, Get);
  }

  lemma NodeProcessed(s: State, t: State)
    requires s.pc.Batch? && s.pc.hand != [] && ProcessStep(s, t) && NodeInv(s)
    ensures NodeInv(t)
  {
    var e := s.pc.hand[0];
    if !WrongState(s.node.connected, e) && t.pc.BatchCheck? {
      ShapeTail(s.node.connected, s.pc.hand, t.node.connected);
      MovesAppend(s.issued, e);
      MeasuredAppend(s.node, s.issued, e, t.node);
    }
  }

  lemma ShapeBatch(puts: seq<Event>, gets: seq<Event>, leaves: seq<Event>)
    requires forall e :: e in puts ==> e.Kind() == Put
    requires forall e :: e in gets ==> e.Kind() == Get
    requires forall e :: e in leaves ==> e.Kind() == Leave
    ensures Shape(true, puts + gets + leaves)
  {
    var hand := puts + gets + leaves;
    assert forall i :: 0 <= i < |hand| ==> hand[i] in puts || hand[i] in gets || hand[i] in leaves;
    forall j | |puts| + |gets| <= j < |hand| ensures hand[j].LeaveEvent? {
      assert hand[j] in leaves;
    }
    forall i | 0 <= i < |puts| + |gets| ensures !hand[i].LeaveEvent? {
      assert hand[i] in puts || hand[i] in gets;
    }
  }

  lemma ShapePopped(s: State, t: State)
    requires s.pc.Due? && DueStep(s, t) && Typed(s)
    ensures Shape(s.node.connected, t.Hand())
  {
    if IsDue(s.pc.elapsed, s.pc.next) {
      if s.node.connected {
        var puts, gets, leaves :| ConnectedBatch(s, t, s.pc.elapsed, puts, gets, leaves);
        BatchKinds(s, t, s.pc.elapsed, puts, gets, leaves);
        ShapeBatch(puts, gets, leaves);
      } else {
        JoinKinds(s, t, s.pc.elapsed);
      }
    }
  }

  lemma NodePreserved(c: Config, s: State, t: State)
    requires Step(c, s, t) && Typed(s) && NodeInv(s)
    ensures NodeInv(t)
  {
    if s.pc.Due? {
      ShapePopped(s, t);
    } else if s.pc.Batch? && s.pc.hand != [] {
      NodeProcessed(s, t);
    }
  }

  lemma NodeStarts(c: Config)
    ensures NodeInv(Start(c))
  {
    var s := Start(c);
    assert s.Hand() == [] && s.issued == [] && s.node == NEW_NODE;
    NodeNew(s);
  }

  lemma NodeNew(s: State)
    requires s.Hand() == [] && s.issued == [] && s.node == NEW_NODE
    ensures NodeInv(s)
  {
  }

  lemma {:induction false} NodeHolds(c: Config, run: seq<State>)
    requires WellFormed(c) && IsRun(c, run)
    ensures NodeInv(run[|run| - 1])
    decreases |run|
  {
    hide NodeInv, Typed, WellFormed, Step;
    if |run| == 1 {
      NodeStarts(c);
    } else {
      RunPrefix(c, run);
      var before := run[..|run| - 1];
      NodeHolds(c, before);
      AllConservedHolds(c, before);
      NodePreserved(c, before[|before| - 1], run[|run| - 1]);
    }
  }

  /** In every run a batch is either joins alone, or puts, then gets, then leaves. */
  lemma PutsThenGetsThenLeaves(c: Config, s: State, i: nat, j: nat)
    requires WellFormed(c) && Reachable(c, s) && i < j < |s.Hand()|
    ensures s.Hand()[i].JoinEvent? <==> s.Hand()[j].JoinEvent?
    ensures s.Hand()[j].PutEvent? ==> s.Hand()[i].PutEvent?
    ensures s.Hand()[j].GetEvent? ==> s.Hand()[i].PutEvent? || s.Hand()[i].GetEvent?
  {
    var run :| IsRun(c, run) && run[|run| - 1] == s;
    NodeHolds(c, run);
    hide Measured, Alternates, Moves;
    assert s.Hand()[i] in s.Hand() && s.Hand()[j] in s.Hand();
  }

  /** In every run joins and leaves strictly alternate, starting with a join. */
  lemma JoinsAndLeavesAlternate(c: Config, s: State)
    requires WellFormed(c) && Reachable(c, s)
    ensures Alternates(Moves(s.issued))
    ensures s.node.connected <==> |Moves(s.issued)| % 2 == 1
  {
    var run :| IsRun(c, run) && run[|run| - 1] == s;
    NodeHolds(c, run);
  }

  /** Metric conservation, also for runs cut short in the middle of a batch; in particular no
      put or get ever meets a disconnected node. */
  lemma EveryOperationMeasured(c: Config, s: State)
    requires WellFormed(c) && Reachable(c, s)
    ensures Measured(s.node, s.issued)
  {
    var run :| IsRun(c, run) && run[|run| - 1] == s;
    NodeHolds(c, run);
  }
}
