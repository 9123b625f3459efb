/** What every run of the event loop keeps: nothing is lost or invented, each operation is
    issued in time order, never early, and an Interval profile catches up exactly. */
module SchedulerOrder {
  import opened Clock
  import opened Events
  import opened ProfileModel
  import opened Scheduler

  function Of(s: seq<Event>, op: Op): seq<Event> {
    if s == [] then []
    else (if s[0].Kind() == op then [s[0]] else []) + Of(s[1..], op)
  }

  lemma {:induction false} OfConcat(a: seq<Event>, b: seq<Event>, op: Op)
    ensures Of(a + b, op) == Of(a, op) + Of(b, op)
  {
    if a == [] {
      assert a + b == b;
    } else {
      assert (a + b)[1..] == a[1..] + b && (a + b)[0] == a[0];
      OfConcat(a[1..], b, op);
    }
  }

  lemma OfUniform(s: seq<Event>, kind: Op, op: Op)
    requires forall e :: e in s ==> e.Kind() == kind
    ensures Of(s, op) == if kind == op then s else []
  {
    if s != [] {
      OfUniform(s[1..], kind, op);
    }
  }

  // ---------- the view of one operation ----------

  function Initial(c: Config, op: Op): Profile {
    Start(c).Profiles(op)
  }

  ghost predicate TypedProfile(p: Profile, op: Op) {
    p.op == op && forall e :: e in p.queue ==> e.Kind() == op
  }

  ghost predicate Typed(s: State) {
    forall op :: TypedProfile(s.Profiles(op), op)
  }

  /** Seen from one operation, every step leaves its profile alone, schedules it or pops it. */
  lemma StepOnProfile(c: Config, s: State, t: State, op: Op)
    requires c.duration < TIME_UNITS && ClockInv(c, s) && Step(c, s, t) && Typed(s)
    ensures || t.Profiles(op) == s.Profiles(op)
            || (s.pc.Plan? && Scheduled(s.Profiles(op), Ceil(s.clock), t.Profiles(op)))
            || (s.pc.Due? && Taken(s.Profiles(op), Ceil(s.clock), Of(t.Hand(), op), t.Profiles(op)))
    ensures t.Profiles(op) == s.Profiles(op) && s.pc.Due? ==> Of(t.Hand(), op) == []
  {
    if s.pc.Due? {
      DueOnProfile(s, t, op);
    }
  }

  lemma OfBatch(puts: seq<Event>, gets: seq<Event>, leaves: seq<Event>, op: Op)
    requires forall e :: e in puts ==> e.Kind() == Put
    requires forall e :: e in gets ==> e.Kind() == Get
    requires forall e :: e in leaves ==> e.Kind() == Leave
    ensures Of(puts + gets + leaves, op) ==
            match op { case Join => [] case Leave => leaves case Put => puts case Get => gets }
  {
    OfUniform(puts, Put, op);
    OfUniform(gets, Get, op);
    OfUniform(leaves, Leave, op);
    OfConcat(puts + gets, leaves, op);
    OfConcat(puts, gets, op);
  }

  lemma TakenKinds(p: Profile, now: nat, list: seq<Event>, p': Profile)
    requires Taken(p, now, list, p') && TypedProfile(p, p.op)
    ensures forall e :: e in list ==> e.Kind() == p.op
  {
    ListFromQueue(p, now, list, p');
  }

  lemma BatchKinds(s: State, t: State, elapsed: nat, puts: seq<Event>, gets: seq<Event>, leaves: seq<Event>)
    requires ConnectedBatch(s, t, elapsed, puts, gets, leaves) && Typed(s)
    ensures forall e :: e in puts ==> e.Kind() == Put
    ensures forall e :: e in gets ==> e.Kind() == Get
    ensures forall e :: e in leaves ==> e.Kind() == Leave
  {
    assert TypedProfile(s.Profiles(Leave), Leave);
    assert TypedProfile(s.Profiles(Put), Put) && TypedProfile(s.Profiles(Get), Get);
    TakenKinds(s.put, elapsed, puts, t.put);
    TakenKinds(s.get, elapsed, gets, t.get);
    TakenKinds(s.leave, elapsed, leaves, t.leave);
  }

  lemma JoinKinds(s: State, t: State, elapsed: nat)
    requires Taken(s.join, elapsed, t.Hand(), t.join) && Typed(s)
    ensures forall e :: e in t.Hand() ==> e.Kind() == Join
  {
    assert TypedProfile(s.Profiles(Join), Join);
    TakenKinds(s.join, elapsed, t.Hand(), t.join);
  }

  lemma BatchOnProfile(s: State, t: State, elapsed: nat, puts: seq<Event>, gets: seq<Event>, leaves: seq<Event>, op: Op)
    requires ConnectedBatch(s, t, elapsed, puts, gets, leaves) && Typed(s)
    ensures Of(t.Hand(), op) ==
            match op { case Join => [] case Leave => leaves case Put => puts case Get => gets }
  {
    BatchKinds(s, t, elapsed, puts, gets, leaves);
    OfBatch(puts, gets, leaves, op);
  }

  lemma DueOnProfile(s: State, t: State, op: Op)
    requires s.pc.Due? && DueStep(s, t) && Typed(s)
    ensures || (t.Profiles(op) == s.Profiles(op) && Of(t.Hand(), op) == [])
            || Taken(s.Profiles(op), s.pc.elapsed, Of(t.Hand(), op), t.Profiles(op))
  {
    var elapsed := s.pc.elapsed;
    if IsDue(elapsed, s.pc.next) {
      if s.node.connected {
        var puts, gets, leaves :| ConnectedBatch(s, t, elapsed, puts, gets, leaves);
        BatchOnProfile(s, t, elapsed, puts, gets, leaves, op);
      } else {
        JoinKinds(s, t, elapsed);
        OfUniform(t.Hand(), Join, op);
      }
    }
  }

  lemma ScheduledTyped(p: Profile, now: nat, p': Profile)
    requires Scheduled(p, now, p') && TypedProfile(p, p.op)
    ensures TypedProfile(p', p.op)
  {
    if NextTime(p.queue) == 0 && Refills(p.kind) {
      var draw, added :| Refilled(p, now, draw, added, p');
      forall e | e in p'.queue ensures e.Kind() == p.op {
        assert e in p.queue || e in added;
      }
    }
  }

  lemma TypedPreserved(c: Config, s: State, t: State)
    requires c.duration < TIME_UNITS && ClockInv(c, s) && Step(c, s, t) && Typed(s)
    ensures Typed(t)
  {
    forall op ensures TypedProfile(t.Profiles(op), op) {
      assert TypedProfile(s.Profiles(op), op);
      StepOnProfile(c, s, t, op);
      if s.pc.Plan? && Scheduled(s.Profiles(op), Ceil(s.clock), t.Profiles(op)) {
        ScheduledTyped(s.Profiles(op), Ceil(s.clock), t.Profiles(op));
      }
    }
  }

  // ---------- conservation ----------

  ghost predicate Conserved(c: Config, s: State, op: Op) {
    var p := s.Profiles(op);
    && p.kind == Initial(c, op).kind
    && p.pushed == multiset(p.taken) + p.queue
    && p.taken == Of(s.issued, op) + Of(s.Hand(), op)
  }

  lemma HistoryProcessed(s: State, t: State, op: Op)
    requires s.pc.Batch? && s.pc.hand != []
    requires t.issued == s.issued + [s.pc.hand[0]] && t.Hand() == s.pc.hand[1..]
    ensures Of(t.issued, op) + Of(t.Hand(), op) == Of(s.issued, op) + Of(s.Hand(), op)
  {
    var first := [s.pc.hand[0]];
    OfConcat(s.issued, first, op);
    OfConcat(first, s.pc.hand[1..], op);
    assert first + s.pc.hand[1..] == s.pc.hand;
  }

  lemma HistoryKept(c: Config, s: State, t: State, op: Op)
    requires Step(c, s, t) && !s.pc.Due?
    ensures Of(t.issued, op) + Of(t.Hand(), op) == Of(s.issued, op) + Of(s.Hand(), op)
  {
    if s.pc.Batch? && s.pc.hand != [] && t.pc.BatchCheck? {
      HistoryProcessed(s, t, op);
    }
  }

  lemma MovedConserved(p: Profile, now: nat, p': Profile)
    requires p.pushed == multiset(p.taken) + p.queue
    requires Scheduled(p, now, p') || exists list :: Taken(p, now, list, p')
    ensures p'.pushed == multiset(p'.taken) + p'.queue && p'.kind == p.kind
  {
    if !Scheduled(p, now, p') {
      var list :| Taken(p, now, list, p');
      assert multiset(p.taken + list) == multiset(p.taken) + multiset(list);
    }
  }

  lemma ConservedPreserved(c: Config, s: State, t: State, op: Op)
    requires c.duration < TIME_UNITS && ClockInv(c, s) && Step(c, s, t) && Typed(s)
    requires Conserved(c, s, op)
    ensures Conserved(c, t, op)
  {
    var p, p' := s.Profiles(op), t.Profiles(op);
    StepOnProfile(c, s, t, op);
    if p' != p {
      MovedConserved(p, Ceil(s.clock), p');
    }
    if s.pc.Due? {
      assert Of(s.issued, op) + [] == Of(s.issued, op);
      assert Of(t.issued, op) + [] == Of(t.issued, op);
    } else {
      HistoryKept(c, s, t, op);
    }
  }

  // ---------- order ----------

  lemma OrderedPreserved(c: Config, s: State, t: State, op: Op)
    requires WellFormed(c) && ClockInv(c, s) && Step(c, s, t) && Typed(s)
    requires Conserved(c, s, op) && Ordered(s.Profiles(op), Ceil(s.clock))
    ensures Ordered(t.Profiles(op), Ceil(t.clock))
  {
    var p, p', now := s.Profiles(op), t.Profiles(op), Ceil(s.clock);
    StepOnProfile(c, s, t, op);
    ClockPreserved(c, s, t);
    if p' != p {
      if s.pc.Plan? {
        OrderedScheduled(p, now, p');
      } else {
        OrderedTaken(p, now, Of(t.Hand(), op), p');
      }
    }
    OrderedLater(p', now, Ceil(t.clock));
  }

  ghost predicate AllConserved(c: Config, s: State) {
    && ClockInv(c, s) && Typed(s)
    && forall op :: Conserved(c, s, op)
  }

  lemma {:induction false} AllConservedHolds(c: Config, run: seq<State>)
    requires WellFormed(c) && IsRun(c, run)
    ensures AllConserved(c, run[|run| - 1])
    decreases |run|
  {
    if |run| == 1 {
      forall op ensures TypedProfile(Initial(c, op), op) && Conserved(c, run[0], op) {
        assert multiset(Initial(c, op).taken) == multiset{};
      }
    } else {
      RunPrefix(c, run);
      AllConservedHolds(c, run[..|run| - 1]);
      var s, t := run[|run| - 2], run[|run| - 1];
      ClockPreserved(c, s, t);
      TypedPreserved(c, s, t);
      forall op ensures Conserved(c, t, op) {
        ConservedPreserved(c, s, t, op);
      }
    }
  }

  lemma {:induction false} OrderedHolds(c: Config, run: seq<State>, op: Op)
    requires WellFormed(c) && IsRun(c, run)
    ensures run[|run| - 1].clock >= 0.0
    ensures Ordered(run[|run| - 1].Profiles(op), Ceil(run[|run| - 1].clock))
    decreases |run|
  {
    if |run| == 1 {
      OrderedFresh(Initial(c, op));
    } else {
      RunPrefix(c, run);
      OrderedHolds(c, run[..|run| - 1], op);
      AllConservedHolds(c, run[..|run| - 1]);
      OrderedPreserved(c, run[|run| - 2], run[|run| - 1], op);
    }
  }

  /** Whole-run conservation: every event ever pushed is issued, in hand or still queued. */
  lemma NothingLost(c: Config, s: State, op: Op)
    requires WellFormed(c) && Reachable(c, s)
    ensures s.Profiles(op).pushed
         == multiset(Of(s.issued, op)) + multiset(Of(s.Hand(), op)) + s.Profiles(op).queue
  {
    var run :| IsRun(c, run) && run[|run| - 1] == s;
    AllConservedHolds(c, run);
    assert Conserved(c, s, op);
  }

  /** Whole-run order: the events of one operation are issued in time order, across all
      refills, and whatever is still queued is no earlier than anything issued. */
  lemma IssuedInOrder(c: Config, s: State, op: Op)
    requires WellFormed(c) && Reachable(c, s)
    ensures Sorted(Of(s.issued, op))
    ensures forall e, x :: e in Of(s.issued, op) && x in s.Profiles(op).queue ==> e.time <= x.time
  {
    var run :| IsRun(c, run) && run[|run| - 1] == s;
    AllConservedHolds(c, run);
    OrderedHolds(c, run, op);
    assert Conserved(c, s, op);
    var issued, taken := Of(s.issued, op), s.Profiles(op).taken;
    assert forall i :: 0 <= i < |issued| ==> issued[i] == taken[i];
  }

  /** No event is carried out more than one second early. */
  lemma NeverIssuedEarly(c: Config, s: State, t: State)
    requires WellFormed(c) && Reachable(c, s) && Step(c, s, t)
    requires s.pc.Batch? && t.issued != s.issued
    ensures exists e :: t.issued == s.issued + [e] && s.clock > e.time as real - 1.0
  {
    var run :| IsRun(c, run) && run[|run| - 1] == s;
    ClockHolds(c, run);
    var e := s.pc.hand[0];
    assert e in s.pc.hand;
    assert t.issued == s.issued + [e];
  }

  // ---------- waiting ----------

  // what is about to be carried out, other than a retried join, was checked to be in time
  ghost predicate InTime(c: Config, s: State) {
    s.pc.Batch? && s.pc.hand != [] && !s.pc.hand[0].JoinEvent? ==> s.clock <= c.duration as real - 1.0
  }

  lemma InTimePreserved(c: Config, s: State, t: State)
    requires WellFormed(c) && ClockInv(c, s) && Step(c, s, t)
    ensures InTime(c, t)
  {
    if s.pc.BatchCheck? {
      CheckMeaning(c.duration, t.clock);
    }
  }

  lemma {:induction false} InTimeHolds(c: Config, run: seq<State>)
    requires WellFormed(c) && IsRun(c, run)
    ensures InTime(c, run[|run| - 1])
  {
    if |run| > 1 {
      RunPrefix(c, run);
      ClockHolds(c, run[..|run| - 1]);
      InTimePreserved(c, run[|run| - 2], run[|run| - 1]);
    }
  }

  /** No put, get or leave is begun in the last second of the run or later, however long the
      operations before it in the batch have taken. */
  lemma NotBegunLate(c: Config, s: State)
    requires WellFormed(c) && Reachable(c, s)
    requires s.pc.Batch? && s.pc.hand != [] && !s.pc.hand[0].JoinEvent?
    ensures s.clock <= c.duration as real - 1.0
  {
    var run :| IsRun(c, run) && run[|run| - 1] == s;
    InTimeHolds(c, run);
  }

  /** The loop waits for as many seconds as its clock is short of the next event, or of the end.
      After one wait it either ends at its next check or finds the awaited event due; a wait with
      no next event always ends it. */
  lemma WaitIsEnough(c: Config, s: State, awake: State, t: State)
    requires WellFormed(c) && Reachable(c, s) && s.pc.Sleep?
    requires Step(c, s, awake) && Step(c, awake, t)
    ensures s.pc.toWait == (if s.pc.next == 0 then c.duration else s.pc.next) - Ceil(s.clock)
    ensures t.pc.Returned? || (t.pc.Plan? && s.pc.next != 0 && t.pc.elapsed >= s.pc.next)
  {
    var run :| IsRun(c, run) && run[|run| - 1] == s;
    ClockHolds(c, run);
    CheckMeaning(c.duration, t.clock);
    CeilShift(s.clock, s.pc.toWait, awake.clock);
    CeilMonotone(awake.clock, t.clock);
  }

  /** "Don't return before duration has passed" fails in some run of every nonzero duration. */
  lemma NeverEarlyIff(c: Config)
    requires WellFormed(c)
    ensures (forall s :: Reachable(c, s) && s.pc.Returned? ==> s.clock >= c.duration as real) <==> c.duration == 0
  {
    if c.duration == 0 {
      forall s | Reachable(c, s) ensures s.clock >= 0.0 {
        var run :| IsRun(c, run) && run[|run| - 1] == s;
        ClockHolds(c, run);
      }
    } else {
      var early := c.duration as real - 0.5;
      CheckMeaning(c.duration, early);
      var s, t := Start(c), AfterCheck(c, Start(c), early);
      assert IsRun(c, [s]);
      RunExtend(c, [s], t);
      var run := [s] + [t];
      assert IsRun(c, run) && run[|run| - 1] == t;
      assert Reachable(c, t);
    }
  }

  /** start() returns, normally or in mid-batch, only in the last second of the run or later. */
  lemma ReturnsAtTheEnd(c: Config, s: State)
    requires WellFormed(c) && Reachable(c, s) && s.pc.Returned?
    ensures s.clock > c.duration as real - 1.0
  {
    var run :| IsRun(c, run) && run[|run| - 1] == s;
    ClockHolds(c, run);
  }

  // ---------- catching up ----------

  ghost predicate Ticking(c: Config, s: State, op: Op)
    requires s.clock >= 0.0
  {
    exists k :: Ticks(s.Profiles(op), Initial(c, op).last, Ceil(s.clock), k)
  }

  // what a connected loop knows about op's next tick after planning
  ghost predicate Ahead(c: Config, s: State, op: Op) {
    var reading := NextTime(s.Profiles(op).queue);
    s.node.connected ==>
      match s.pc
      case Due(_, _, next) => reading >= 1 && if next == 0 then reading > c.duration else reading >= next
      case Batch(elapsed, _, next, hand) => hand == [] && !IsDue(elapsed, next) ==> reading > Ceil(s.clock)
      case Sleep(_, _) => reading > Ceil(s.clock)
      case _ => true
  }

  lemma EarliestBounds(a: nat, b: nat, d: nat)
    ensures var least := Earliest(Earliest(a, b), d);
            && (a != 0 ==> 1 <= least <= a) && (b != 0 ==> 1 <= least <= b) && (d != 0 ==> 1 <= least <= d)
  {
  }

  lemma TicksReading(p: Profile, start: nat, now: nat, k: nat)
    requires Ticks(p, start, now, k) && p.queue != multiset{}
    ensures NextTime(p.queue) == p.last >= 1
  {
    var e :| IsTop(p.queue, e) && e.time == NextTime(p.queue);
  }

  lemma TickingPreserved(c: Config, s: State, t: State, op: Op)
    requires WellFormed(c) && ClockInv(c, s) && Step(c, s, t) && Typed(s)
    requires Bounded(s.Profiles(op)) && Ticking(c, s, op)
    ensures t.clock >= 0.0 && Bounded(t.Profiles(op)) && Ticking(c, t, op)
    ensures s.pc.Plan? && Scheduled(s.Profiles(op), Ceil(s.clock), t.Profiles(op)) ==>
              NextTime(t.Profiles(op).queue) >= 1
  {
    var p, p', now, start := s.Profiles(op), t.Profiles(op), Ceil(s.clock), Initial(c, op).last;
    var k :| Ticks(p, start, now, k);
    StepOnProfile(c, s, t, op);
    ClockPreserved(c, s, t);
    if s.pc.Plan? && Scheduled(p, now, p') {
      k := TicksScheduled(p, start, now, k, p');
      TicksReading(p', start, now, k);
    } else if s.pc.Due? && Taken(p, now, Of(t.Hand(), op), p') {
      TicksTaken(p, start, now, k, Of(t.Hand(), op), p');
    }
    TicksLater(p', start, now, Ceil(t.clock), k);
  }

  lemma AheadPlanned(c: Config, s: State, t: State, op: Op)
    requires s.pc.Plan? && PlanStep(c, s, t) && (op.Put? || op.Get?)
    requires s.node.connected ==> NextTime(t.Profiles(op).queue) >= 1
    ensures Ahead(c, t, op)
  {
    EarliestBounds(NextTime(t.leave.queue), NextTime(t.put.queue), NextTime(t.get.queue));
  }

  lemma AheadDue(c: Config, s: State, t: State, op: Op)
    requires ClockInv(c, s) && s.pc.Due? && DueStep(s, t) && Ahead(c, s, op)
    ensures Ahead(c, t, op)
  {
  }

  lemma AheadBottom(c: Config, s: State, op: Op)
    requires ClockInv(c, s) && s.pc.Batch? && s.pc.hand == [] && Ahead(c, s, op)
    ensures Ahead(c, s.(pc := Bottom(s)), op)
  {
  }

  lemma AheadElsewhere(c: Config, s: State, t: State, op: Op)
    requires WellFormed(c) && ClockInv(c, s) && Step(c, s, t)
    requires s.pc.Check? || s.pc.BatchCheck? || s.pc.Sleep? || (s.pc.Batch? && s.pc.hand != [])
    ensures Ahead(c, t, op)
  {
    ClockPreserved(c, s, t);
  }

  lemma AheadPreserved(c: Config, s: State, t: State, op: Op)
    requires WellFormed(c) && ClockInv(c, s) && Step(c, s, t) && Ahead(c, s, op)
    requires op.Put? || op.Get?
    requires s.pc.Plan? && s.node.connected ==> NextTime(t.Profiles(op).queue) >= 1
    ensures Ahead(c, t, op)
  {
    if s.pc.Plan? {
      AheadPlanned(c, s, t, op);
    } else if s.pc.Due? {
      AheadDue(c, s, t, op);
    } else if s.pc.Batch? && s.pc.hand == [] {
      AheadBottom(c, s, op);
    } else {
      AheadElsewhere(c, s, t, op);
    }
  }

  lemma {:induction false} TickingHolds(c: Config, run: seq<State>, op: Op)
    requires WellFormed(c) && IsRun(c, run) && (op.Put? || op.Get?)
    requires var p := Initial(c, op);
             p.kind.Interval? && p.kind.frequency >= 1 && p.kind.repetitions >= 1 && !HasZero(p.queue)
    ensures var s := run[|run| - 1];
            AllConserved(c, s) && Bounded(s.Profiles(op)) && Ticking(c, s, op) && Ahead(c, s, op)
    decreases |run|
  {
    AllConservedHolds(c, run);
    if |run| == 1 {
      TicksFresh(Initial(c, op));
      assert Ticks(run[0].Profiles(op), Initial(c, op).last, Ceil(run[0].clock), 0);
    } else {
      RunPrefix(c, run);
      var s, t := run[|run| - 2], run[|run| - 1];
      TickingHolds(c, run[..|run| - 1], op);
      TickingPreserved(c, s, t, op);
      AheadPreserved(c, s, t, op);
    }
  }

  // op has issued every tick of p up to now, each complete and in order
  ghost predicate CaughtUp(p: Profile, now: nat, issued: seq<Event>)
    requires p.kind.Interval? && p.kind.frequency >= 1 && p.kind.repetitions >= 1
  {
    && (now >= p.last ==> |issued| == p.kind.repetitions * ((now - p.last) / p.kind.frequency + 1))
    && OnTicks(issued, p.last, p.kind.frequency, p.kind.repetitions)
  }

  lemma TicksAsleep(c: Config, s: State, op: Op, k: nat)
    requires s.clock >= 0.0 && s.pc.Sleep? && s.node.connected
    requires Conserved(c, s, op) && Ahead(c, s, op)
    requires Ticks(s.Profiles(op), Initial(c, op).last, Ceil(s.clock), k)
    ensures CaughtUp(Initial(c, op), Ceil(s.clock), Of(s.issued, op))
  {
    assert Of(s.issued, op) + [] == Of(s.issued, op);
    if Ceil(s.clock) >= Initial(c, op).last {
      TicksCaughtUp(s.Profiles(op), Initial(c, op).last, Ceil(s.clock), k);
    }
  }

  /** Interval catch-up in closed form: whenever the loop goes to sleep while connected, an
      Interval profile has issued every tick up to now, each complete and in order, however
      long the node was disconnected before. */
  lemma IntervalCaughtUp(c: Config, s: State, op: Op)
    requires WellFormed(c) && Reachable(c, s) && (op.Put? || op.Get?)
    requires var p := Initial(c, op);
             p.kind.Interval? && p.kind.frequency >= 1 && p.kind.repetitions >= 1 && !HasZero(p.queue)
    requires s.pc.Sleep? && s.node.connected
    ensures s.clock >= 0.0 && CaughtUp(Initial(c, op), Ceil(s.clock), Of(s.issued, op))
  {
    var run :| IsRun(c, run) && run[|run| - 1] == s;
    TickingHolds(c, run, op);
    var k :| Ticks(s.Profiles(op), Initial(c, op).last, Ceil(s.clock), k);
    assert Conserved(c, s, op);
    TicksAsleep(c, s, op, k);
  }
}
