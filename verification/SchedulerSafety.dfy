/** When the controller kills its own process: the exact configurations for which some run
    meets a join while connected or a leave while disconnected. */
module SchedulerSafety {
  import opened Clock
  import opened Events
  import opened ProfileModel
  import opened Scheduler
  import opened SchedulerOrder

  ghost predicate Holds(q: multiset<Event>, a: Event, b: Event) {
    multiset{a, b} <= q
  }

  // two events, possibly equal, that fall before the end of the run
  ghost predicate TwoDue(q: multiset<Event>, duration: nat) {
    exists a, b {:trigger Holds(q, a, b)} :: Holds(q, a, b) && a.time < duration && b.time < duration
  }

  /** A profile can make the loop dispatch: nothing in it reads as "none", and it has, or can
      draw, an event before the end of the run. */
  ghost predicate CanFire(p: Profile, duration: nat) {
    && duration >= 2
    && !HasZero(p.queue)
    && (p.kind.Weibull? || exists e :: e in p.queue && e.time < duration)
  }

  ghost predicate CanTrigger(c: Config) {
    CanFire(c.leave, c.duration) || CanFire(c.put, c.duration) || CanFire(c.get, c.duration)
  }

  ghost predicate ManyJoins(c: Config) {
    c.join.kind.Static? && TwoDue(c.join.queue, c.duration)
  }

  /** Two listed leaves, or a refilling leave profile whose first event is at time 0 and so
      piles up one more event each time round. */
  ghost predicate ManyLeaves(c: Config) {
    || (c.leave.kind.Static? && TwoDue(c.leave.queue, c.duration))
    || ((c.leave.kind.Now? || c.leave.kind.Poisson?) && HasZero(c.leave.queue))
  }

  ghost predicate Hazard(c: Config) {
    CanFire(c.join, c.duration) && (ManyJoins(c) || (CanTrigger(c) && ManyLeaves(c)))
  }

  // ---------- without a hazard the process is never killed ----------

  /** At most one event of p can fall due at a time. */
  ghost predicate Single(p0: Profile, p: Profile, now: nat, duration: nat) {
    && p.kind == p0.kind
    && match p.kind
       case Static => p.queue <= p0.queue && !TwoDue(p0.queue, duration)
       case Empty => p.queue == multiset{}
       case Interval(_, _) => false
       case _ =>
         && |p.queue| <= 1 && !HasZero(p.queue)
         && (p.kind.Poisson? ==>
               && 1 <= p.last < TIME_UNITS && AllAt(p.queue, p.last)
               && (p.queue == multiset{} ==> p.last <= now))
  }

  lemma SingleFresh(p: Profile, duration: nat)
    requires Fresh(p) && !p.kind.Interval?
    requires if p.kind.Static? then !TwoDue(p.queue, duration) else !HasZero(p.queue)
    ensures Single(p, p, 0, duration)
  {
    if p.kind.Poisson? {
      var e :| e in p.queue;
    }
  }

  lemma SingleScheduled(p0: Profile, p: Profile, now: nat, p': Profile, duration: nat)
    requires Single(p0, p, now, duration) && Scheduled(p, now, p') && now < DRAW_LIMIT
    ensures Single(p0, p', now, duration) || (now == 0 && NextTime(p'.queue) == 0)
  {
    if NextTime(p.queue) == 0 && Refills(p.kind) {
      var draw, added :| Refilled(p, now, draw, added, p');
      EmptyIfUnread(p.queue);
      assert p'.queue == multiset{added[0]} by {
        assert added == [added[0]];
      }
    }
  }

  lemma PoppedPair(q: multiset<Event>, now: nat, list: seq<Event>, rest: multiset<Event>, duration: nat)
    requires Popped(q, now, list, rest) && |list| >= 2 && now < duration
    ensures |q| >= 2 && TwoDue(q, duration)
  {
    var a, b := list[0], list[1];
    assert list == [a, b] + list[2..];
    assert multiset(list) == multiset{a, b} + multiset(list[2..]);
    assert a in list && b in list;
    assert Holds(q, a, b);
  }

  lemma TwoDueWithin(q: multiset<Event>, q0: multiset<Event>, duration: nat)
    requires q <= q0 && TwoDue(q, duration)
    ensures TwoDue(q0, duration)
  {
    var a, b :| Holds(q, a, b) && a.time < duration && b.time < duration;
    assert Holds(q0, a, b);
  }

  lemma SingleTaken(p0: Profile, p: Profile, now: nat, list: seq<Event>, p': Profile, duration: nat)
    requires Single(p0, p, now, duration) && Taken(p, now, list, p') && now < duration
    ensures |list| <= 1 && Single(p0, p', now, duration)
  {
    ListFromQueue(p, now, list, p');
    assert p'.queue <= p.queue;
    if |list| >= 2 {
      PoppedPair(p.queue, now, list, p'.queue, duration);
      if p.kind.Static? {
        TwoDueWithin(p.queue, p0.queue, duration);
      }
    }
    if list == [] {
      assert multiset(list) + p'.queue == p'.queue;
    } else {
      assert list[0] in list;
    }
  }

  /** The loop has decided to sleep to the end. */
  ghost predicate Over(c: Config, s: State) {
    match s.pc
    case Check => s.clock > c.duration as real - 1.0
    case Due(_, _, next) => next == 0 || next >= c.duration
    case Batch(_, _, next, hand) => hand == [] && (next == 0 || next >= c.duration)
    case Sleep(toWait, _) => s.clock + toWait as real > c.duration as real - 1.0
    case Returned(_) => true
    case _ => false
  }

  lemma OverPreserved(c: Config, s: State, t: State)
    requires c.duration < TIME_UNITS && ClockInv(c, s) && Over(c, s) && Step(c, s, t)
    ensures Over(c, t)
  {
    if s.pc.Check? {
      CheckMeaning(c.duration, t.clock);
    } else if s.pc.Batch? {
      CeilBounds(s.clock);
    }
  }

  // a join alone, or puts and gets with at most one leave, at the end
  ghost predicate Harmless(connected: bool, hand: seq<Event>) {
    || hand == []
    || (!connected && |hand| == 1 && hand[0].JoinEvent?)
    || (&& connected
        && forall i :: 0 <= i < |hand| ==> !hand[i].JoinEvent? && (i < |hand| - 1 ==> !hand[i].LeaveEvent?))
  }

  ghost predicate Untouched(c: Config, s: State) {
    s.leave == c.leave && s.put == c.put && s.get == c.get
  }

  ghost predicate Safe(c: Config, s: State) {
    && !s.pc.Killed? && s.clock >= 0.0
    && Harmless(s.node.connected, s.Hand())
    && if !CanFire(c.join, c.duration) then
         (s.pc.Check? || s.pc.Plan?) && s.join == c.join && !s.node.connected
       else
         && Single(c.join, s.join, Ceil(s.clock), c.duration)
         && if CanTrigger(c) then Single(c.leave, s.leave, Ceil(s.clock), c.duration)
            else Untouched(c, s) && (s.node.connected ==> !s.pc.Due? && s.Hand() == [])
  }

  lemma CannotFireRefilled(p: Profile, now: nat, draw: nat, added: seq<Event>, p': Profile, duration: nat)
    requires Fresh(p) && !CanFire(p, duration) && p.queue == multiset{} && now < duration
    requires Refills(p.kind) && Refilled(p, now, draw, added, p')
    ensures NextTime(p'.queue) == 0 || NextTime(p'.queue) >= duration
  {
    if duration >= 2 {
      assert !HasZero(p.queue);
      assert p.kind.Interval? && BatchSize(p.kind) == 0;
      assert multiset(added) == multiset{};
    }
  }

  lemma CannotFire(p: Profile, now: nat, p': Profile, duration: nat)
    requires Fresh(p) && !CanFire(p, duration) && Scheduled(p, now, p') && now < duration
    ensures NextTime(p'.queue) == 0 || NextTime(p'.queue) >= duration
  {
    if HasZero(p.queue) {
      var e :| e in p.queue && e.time == 0;
      assert e in p'.queue;
    } else if p.queue == multiset{} {
      if Refills(p.kind) {
        var draw, added :| Refilled(p, now, draw, added, p');
        CannotFireRefilled(p, now, draw, added, p', duration);
      }
    } else {
      var e :| IsTop(p.queue, e) && e.time == NextTime(p.queue);
    }
  }

  lemma HarmlessBatch(puts: seq<Event>, gets: seq<Event>, leaves: seq<Event>)
    requires forall e :: e in puts ==> e.Kind() == Put
    requires forall e :: e in gets ==> e.Kind() == Get
    requires forall e :: e in leaves ==> e.Kind() == Leave
    requires |leaves| <= 1
    ensures Harmless(true, puts + gets + leaves)
  {
    var hand := puts + gets + leaves;
    forall i | 0 <= i < |hand| ensures !hand[i].JoinEvent? && (i < |puts| + |gets| ==> !hand[i].LeaveEvent?) {
      assert hand[i] in (if i < |puts| then puts else if i < |puts| + |gets| then gets else leaves);
    }
  }

  // no profile that the loop consults can make it dispatch
  lemma OverPlanned(c: Config, s: State, t: State)
    requires WellFormed(c) && ClockInv(c, s) && Safe(c, s) && s.pc.Plan? && PlanStep(c, s, t)
    requires if s.node.connected then !CanTrigger(c) else !CanFire(c.join, c.duration)
    ensures Over(c, t)
  {
    var now, d := s.pc.elapsed, c.duration;
    if s.node.connected {
      CannotFire(s.leave, now, t.leave, d);
      CannotFire(s.put, now, t.put, d);
      CannotFire(s.get, now, t.get, d);
    } else {
      CannotFire(s.join, now, t.join, d);
    }
  }

  lemma SafePlanned(c: Config, s: State, t: State)
    requires WellFormed(c) && ClockInv(c, s) && Safe(c, s)
    requires s.pc.Plan? && PlanStep(c, s, t)
    requires if s.node.connected then CanTrigger(c) else CanFire(c.join, c.duration)
    ensures Over(c, t) || Safe(c, t)
  {
    var now, d := s.pc.elapsed, c.duration;
    if s.node.connected {
      SingleScheduled(c.leave, s.leave, now, t.leave, d);
    } else {
      SingleScheduled(c.join, s.join, now, t.join, d);
    }
  }

  lemma SafeDispatched(c: Config, s: State, t: State)
    requires ClockInv(c, s) && Safe(c, s) && Typed(s)
    requires s.pc.Due? && DueStep(s, t) && IsDue(s.pc.elapsed, s.pc.next)
    ensures Safe(c, t)
  {
    var now, d := s.pc.elapsed, c.duration;
    if s.node.connected {
      var puts, gets, leaves :| ConnectedBatch(s, t, now, puts, gets, leaves);
      SingleTaken(c.leave, s.leave, now, leaves, t.leave, d);
      BatchKinds(s, t, now, puts, gets, leaves);
      HarmlessBatch(puts, gets, leaves);
    } else {
      SingleTaken(c.join, s.join, now, t.Hand(), t.join, d);
      JoinKinds(s, t, now);
      assert t.Hand() != [] ==> t.Hand()[0] in t.Hand();
    }
  }

  lemma HarmlessProcessed(c: Config, s: State, t: State)
    requires ClockInv(c, s) && s.pc.Batch? && s.pc.hand != [] && ProcessStep(s, t)
    requires Harmless(s.node.connected, s.pc.hand)
    ensures !t.pc.Killed? && Harmless(t.node.connected, t.Hand())
    ensures s.node.connected || s.pc.hand[0].JoinEvent?
  {
  }

  // what time passing does to the state of the profiles
  lemma SafeLater(c: Config, s: State, t: State)
    requires Safe(c, s) && t.clock >= s.clock
    requires t.join == s.join && t.leave == s.leave && t.put == s.put && t.get == s.get
    requires !t.pc.Killed? && Harmless(t.node.connected, t.Hand())
    requires !CanFire(c.join, c.duration) ==> (t.pc.Check? || t.pc.Plan?) && !t.node.connected
    requires !CanTrigger(c) && t.node.connected ==> !t.pc.Due? && t.Hand() == []
    ensures Safe(c, t)
  {
    CeilMonotone(s.clock, t.clock);
  }

  lemma SafeProcessed(c: Config, s: State, t: State)
    requires ClockInv(c, s) && Safe(c, s) && s.pc.Batch? && s.pc.hand != [] && ProcessStep(s, t)
    ensures Safe(c, t)
  {
    HarmlessProcessed(c, s, t);
    SafeLater(c, s, t);
  }

  lemma SafeIdle(c: Config, s: State, t: State)
    requires Safe(c, s) && Step(c, s, t)
    requires s.pc.Check? || s.pc.BatchCheck? || s.pc.Sleep? || (s.pc.Batch? && s.pc.hand == [])
    ensures t.pc.Returned? || Safe(c, t)
  {
    if !t.pc.Returned? {
      SafeLater(c, s, t);
    }
  }

  lemma SafeMoved(c: Config, s: State, t: State)
    requires WellFormed(c) && ClockInv(c, s) && Safe(c, s) && Step(c, s, t)
    requires !s.pc.Plan? && !(s.pc.Due? && IsDue(s.pc.elapsed, s.pc.next))
    ensures Over(c, t) || Safe(c, t)
  {
    if s.pc.Batch? && s.pc.hand != [] {
      SafeProcessed(c, s, t);
    } else if s.pc.Due? {
      SafeLater(c, s, t);
    } else {
      SafeIdle(c, s, t);
    }
  }

  lemma SafePreserved(c: Config, s: State, t: State)
    requires WellFormed(c) && !Hazard(c) && ClockInv(c, s) && Typed(s) && Step(c, s, t)
    requires Over(c, s) || Safe(c, s)
    ensures Over(c, t) || Safe(c, t)
  {
    if Over(c, s) {
      OverPreserved(c, s, t);
    } else if s.pc.Plan? && (if s.node.connected then !CanTrigger(c) else !CanFire(c.join, c.duration)) {
      OverPlanned(c, s, t);
    } else if s.pc.Plan? {
      SafePlanned(c, s, t);
    } else if s.pc.Due? && IsDue(s.pc.elapsed, s.pc.next) {
      SafeDispatched(c, s, t);
    } else {
      SafeMoved(c, s, t);
    }
  }

  lemma SafeStart(c: Config)
    requires WellFormed(c) && !Hazard(c)
    ensures Safe(c, Start(c))
  {
    if CanFire(c.join, c.duration) {
      SingleFresh(c.join, c.duration);
      if CanTrigger(c) {
        SingleFresh(c.leave, c.duration);
      }
    }
  }

  lemma {:induction false} SafeHolds(c: Config, run: seq<State>)
    requires WellFormed(c) && !Hazard(c) && IsRun(c, run)
    ensures Over(c, run[|run| - 1]) || Safe(c, run[|run| - 1])
    decreases |run|
  {
    if |run| == 1 {
      SafeStart(c);
    } else {
      RunPrefix(c, run);
      var before := run[..|run| - 1];
      SafeHolds(c, before);
      AllConservedHolds(c, before);
      SafePreserved(c, before[|before| - 1], run[|run| - 1]);
    }
  }

  // ---------- with a hazard some run is killed ----------

  lemma ReachableStep(c: Config, s: State, t: State)
    requires Reachable(c, s) && Step(c, s, t)
    ensures Reachable(c, t)
  {
    var run :| IsRun(c, run) && run[|run| - 1] == s;
    RunExtend(c, run, t);
    assert (run + [t])[|run + [t]| - 1] == t;
  }

  function Make(op: Op, t: nat): Event {
    match op
    case Join => JoinEvent(t)
    case Leave => LeaveEvent(t)
    case Put => PutEvent(t, "", "_value")
    case Get => GetEvent(t, "")
  }

  /** The loop may reach any point of its last second without reading the clock before. */
  ghost predicate LastSecond(c: Config, s: State) {
    && c.duration >= 2
    && s.clock == (c.duration - 1) as real
    && match s.pc
       case Plan(elapsed, remaining) => elapsed == c.duration - 1 && remaining == 1
       case Due(elapsed, remaining, next) => elapsed == c.duration - 1 && remaining == 1
       case Batch(elapsed, remaining, next, hand) =>
         elapsed == c.duration - 1 && remaining == 1 && 1 <= next <= elapsed
       case BatchCheck(next, hand) => 1 <= next <= c.duration - 1
       case _ => true
  }

  lemma StillLastSecond(c: Config)
    requires 2 <= c.duration <= DRAW_LIMIT
    ensures var clock := (c.duration - 1) as real;
            !Done(c.duration, clock)
            && Elapsed(c.duration, clock) == c.duration - 1 && Remaining(c.duration, clock) == 1
  {
    CheckMeaning(c.duration, (c.duration - 1) as real);
  }

  ghost predicate DueAt(q: multiset<Event>, now: nat) {
    1 <= NextTime(q) <= now
  }

  // a refill with a zero draw
  lemma ZeroDraw(p: Profile, now: nat) returns (added: seq<Event>, p': Profile)
    requires TypedProfile(p, p.op) && Refills(p.kind) && NextTime(p.queue) == 0
    ensures Refilled(p, now, 0, added, p') && Scheduled(p, now, p') && TypedProfile(p', p.op)
  {
    var t := RefillTime(p, now, 0);
    added := seq(BatchSize(p.kind), _ => Make(p.op, t));
    p' := p.(queue := p.queue + multiset(added), pushed := p.pushed + multiset(added),
             last := if Chained(p.kind) then t else p.last);
    assert Refilled(p, now, 0, added, p');
    ScheduledTyped(p, now, p');
  }

  lemma UniformDue(added: seq<Event>, now: nat)
    requires |added| == 1 && added[0].time == now >= 1
    ensures DueAt(multiset(added), now)
  {
    var q := multiset(added);
    forall e | e in q ensures e.time == now {
      assert e in added;
    }
    assert added[0] in added;
    assert q != multiset{};
  }

  lemma FiresNow(p: Profile, now: nat, added: seq<Event>, p': Profile)
    requires Fresh(p) && CanFire(p, now + 1) && now < DRAW_LIMIT
    requires NextTime(p.queue) == 0 && Refilled(p, now, 0, added, p')
    ensures DueAt(p'.queue, now)
  {
    EmptyIfUnread(p.queue);
    assert p.kind.Weibull?;
    assert p'.queue == multiset(added);
    assert added[0] in added;
    UniformDue(added, now);
  }

  lemma PilesUp(p: Profile, now: nat, added: seq<Event>, p': Profile)
    requires Fresh(p) && now < DRAW_LIMIT && HasZero(p.queue) && (p.kind.Now? || p.kind.Poisson?)
    requires Refilled(p, now, 0, added, p')
    ensures TwoDue(p'.queue, now + 1)
  {
    var zero :| zero in p.queue && zero.time == 0;
    var e := added[0];
    assert e in added && e.time <= now;
    assert added == [e];
    assert Holds(p'.queue, zero, e);
  }

  // a call of scheduleNextEvent with a zero draw
  lemma Schedule(p: Profile, duration: nat) returns (p': Profile)
    requires Fresh(p) && 2 <= duration <= DRAW_LIMIT
    ensures Scheduled(p, duration - 1, p') && p.queue <= p'.queue
    ensures p'.op == p.op && TypedProfile(p', p.op)
    ensures CanFire(p, duration) ==> DueAt(p'.queue, duration - 1)
    ensures (p.kind.Now? || p.kind.Poisson?) && HasZero(p.queue) ==> TwoDue(p'.queue, duration)
  {
    var now := duration - 1;
    if NextTime(p.queue) == 0 && Refills(p.kind) {
      var added;
      added, p' := ZeroDraw(p, now);
      if CanFire(p, duration) {
        FiresNow(p, now, added, p');
      }
      if (p.kind.Now? || p.kind.Poisson?) && HasZero(p.queue) {
        PilesUp(p, now, added, p');
      }
    } else {
      p' := p;
      if CanFire(p, duration) && p.queue == multiset{} {
        assert false;
      }
    }
  }

  lemma PairFits(list: seq<Event>, a: Event, b: Event)
    requires multiset{a, b} <= multiset(list)
    ensures |list| >= 2
  {
    assert multiset(list) == multiset{a, b} + (multiset(list) - multiset{a, b});
  }

  lemma PopsDue(q: multiset<Event>, now: nat, list: seq<Event>, rest: multiset<Event>)
    requires Popped(q, now, list, rest)
    ensures DueAt(q, now) ==> list != []
    ensures TwoDue(q, now + 1) ==> |list| >= 2
  {
    if DueAt(q, now) {
      var e :| IsTop(q, e) && e.time == NextTime(q);
      assert e in multiset(list);
    }
    if TwoDue(q, now + 1) {
      var a, b :| Holds(q, a, b) && a.time < now + 1 && b.time < now + 1;
      assert rest[a] == 0 && rest[b] == 0;
      PairFits(list, a, b);
    }
  }

  lemma FirstPlan(c: Config) returns (s: State)
    requires WellFormed(c) && CanFire(c.join, c.duration)
    ensures Reachable(c, s) && LastSecond(c, s) && s.pc.Due? && IsDue(s.pc.elapsed, s.pc.next)
    ensures !s.node.connected && Untouched(c, s) && TypedProfile(s.join, Join)
    ensures s.pc.next == NextTime(s.join.queue) && c.join.queue <= s.join.queue
  {
    var s0, now := Start(c), c.duration - 1;
    assert IsRun(c, [s0]) && [s0][|[s0]| - 1] == s0;
    StillLastSecond(c);
    var s1 := AfterCheck(c, s0, now as real);
    ReachableStep(c, s0, s1);
    var join := Schedule(c.join, c.duration);
    s := s1.(join := join, pc := Due(now, 1, NextTime(join.queue)));
    assert PlanStep(c, s1, s);
    ReachableStep(c, s1, s);
  }

  lemma FirstBatch(c: Config) returns (s: State)
    requires WellFormed(c) && CanFire(c.join, c.duration)
    ensures Reachable(c, s) && LastSecond(c, s) && s.pc.Batch? && !s.node.connected && Untouched(c, s)
    ensures s.pc.hand != [] && forall e :: e in s.pc.hand ==> e.JoinEvent?
    ensures ManyJoins(c) ==> |s.pc.hand| >= 2
  {
    var s0 := FirstPlan(c);
    var join, list := PopAll(s0.join, s0.pc.elapsed);
    PopsDue(s0.join.queue, s0.pc.elapsed, list, join.queue);
    if ManyJoins(c) {
      TwoDueWithin(c.join.queue, s0.join.queue, c.duration);
    }
    s := JoinsInHand(c, s0, join, list);
  }

  lemma JoinsInHand(c: Config, s: State, join: Profile, list: seq<Event>) returns (t: State)
    requires Reachable(c, s) && LastSecond(c, s) && s.pc.Due? && IsDue(s.pc.elapsed, s.pc.next) && !s.node.connected
    requires Taken(s.join, s.pc.elapsed, list, join)
    ensures Reachable(c, t) && LastSecond(c, t) && t.pc.Batch? && t.pc.hand == list
    ensures t == s.(join := join, pc := t.pc)
  {
    t := s.(join := join, pc := Batch(s.pc.elapsed, s.pc.remaining, s.pc.next, list));
    assert DueStep(s, t);
    ReachableStep(c, s, t);
  }

  // one event carried out and checked within the same instant
  lemma ProcessNow(c: Config, s: State, n: Node) returns (t: State)
    requires WellFormed(c) && Reachable(c, s) && LastSecond(c, s) && s.pc.Batch? && s.pc.hand != []
    requires ProcessStep(s, Processed(s, s.clock, n))
    ensures Reachable(c, t) && LastSecond(c, t)
    ensures t == s.(node := n, issued := s.issued + [s.pc.hand[0]], 
                    pc := Batch(s.pc.elapsed, s.pc.remaining, s.pc.next, s.pc.hand[1..]))
  {
    var u := Processed(s, s.clock, n);
    ReachableStep(c, s, u);
    StillLastSecond(c);
    t := AfterBatchCheck(c, u, u.clock);
    ReachableStep(c, u, t);
  }

  lemma KilledNow(c: Config, s: State)
    requires Reachable(c, s) && s.pc.Batch? && s.pc.hand != [] && WrongState(s.node.connected, s.pc.hand[0])
    ensures exists t :: Reachable(c, t) && t.pc.Killed?
  {
    ReachableStep(c, s, s.(pc := Killed(s.pc.hand)));
  }

  /** The first joins: either the second one kills the process, or the loop goes on connected. */
  lemma AfterFirstBatch(c: Config) returns (s: State)
    requires WellFormed(c) && CanFire(c.join, c.duration)
    ensures Reachable(c, s)
    ensures s.pc.Killed? || (LastSecond(c, s) && s.pc.Check? && s.node.connected && Untouched(c, s))
    ensures ManyJoins(c) ==> s.pc.Killed?
  {
    var s1 := FirstBatch(c);
    assert s1.pc.hand[0] in s1.pc.hand;
    var s2 := ProcessNow(c, s1, Joined(s1.node));
    if s2.pc.hand != [] {
      assert s2.pc.hand[0] in s1.pc.hand;
      KilledNow(c, s2);
      s :| Reachable(c, s) && s.pc.Killed?;
    } else {
      s := s2.(pc := Bottom(s2));
      ReachableStep(c, s2, s);
    }
  }

  lemma ScheduleLeaves(c: Config) returns (leave: Profile)
    requires WellFormed(c) && c.duration >= 2 && ManyLeaves(c)
    ensures Scheduled(c.leave, c.duration - 1, leave) && TypedProfile(leave, Leave)
    ensures TwoDue(leave.queue, c.duration)
    ensures CanFire(c.leave, c.duration) ==> DueAt(leave.queue, c.duration - 1)
  {
    leave := Schedule(c.leave, c.duration);
    if c.leave.kind.Static? {
      TwoDueWithin(c.leave.queue, leave.queue, c.duration);
    }
  }

  lemma LookAgain(c: Config, s: State) returns (t: State)
    requires WellFormed(c) && Reachable(c, s) && LastSecond(c, s) && s.pc.Check?
    ensures Reachable(c, t) && t == s.(pc := Plan(c.duration - 1, 1))
  {
    StillLastSecond(c);
    t := AfterCheck(c, s, s.clock);
    ReachableStep(c, s, t);
  }

  lemma ScheduleOp(c: Config, op: Op) returns (p': Profile)
    requires WellFormed(c) && c.duration >= 2
    ensures Scheduled(Initial(c, op), c.duration - 1, p') && TypedProfile(p', op)
    ensures CanFire(Initial(c, op), c.duration) ==> DueAt(p'.queue, c.duration - 1)
  {
    p' := Schedule(Initial(c, op), c.duration);
  }

  lemma SecondPlan(c: Config, s: State, leave: Profile, put: Profile, get: Profile) returns (t: State)
    requires WellFormed(c) && Reachable(c, s)
    requires LastSecond(c, s) && s.pc.Check? && s.node.connected && Untouched(c, s)
    requires Scheduled(c.leave, c.duration - 1, leave)
    requires Scheduled(c.put, c.duration - 1, put) && Scheduled(c.get, c.duration - 1, get)
    requires DueAt(leave.queue, c.duration - 1) || DueAt(put.queue, c.duration - 1) || DueAt(get.queue, c.duration - 1)
    ensures Reachable(c, t) && LastSecond(c, t) && t.node.connected
    ensures t.pc.Due? && IsDue(t.pc.elapsed, t.pc.next)
    ensures t.leave == leave && t.put == put && t.get == get
  {
    var s1 := LookAgain(c, s);
    t := PlanAll(c, s1, leave, put, get);
  }

  lemma PlanAll(c: Config, s: State, leave: Profile, put: Profile, get: Profile) returns (t: State)
    requires Reachable(c, s) && LastSecond(c, s) && s.pc == Plan(c.duration - 1, 1) && s.node.connected
    requires Scheduled(s.leave, c.duration - 1, leave) && Scheduled(s.put, c.duration - 1, put)
    requires Scheduled(s.get, c.duration - 1, get)
    requires DueAt(leave.queue, c.duration - 1) || DueAt(put.queue, c.duration - 1) || DueAt(get.queue, c.duration - 1)
    ensures Reachable(c, t) && LastSecond(c, t) && t.pc.Due? && IsDue(t.pc.elapsed, t.pc.next)
    ensures t == s.(leave := leave, put := put, get := get, pc := t.pc)
  {
    var next := Earliest(Earliest(NextTime(leave.queue), NextTime(put.queue)), NextTime(get.queue));
    EarliestBounds(NextTime(leave.queue), NextTime(put.queue), NextTime(get.queue));
    t := s.(leave := leave, put := put, get := get, pc := Due(s.pc.elapsed, s.pc.remaining, next));
    assert PlanStep(c, s, t);
    ReachableStep(c, s, t);
  }

  lemma Dispatch(c: Config, s: State) returns (t: State, puts: seq<Event>, gets: seq<Event>, leaves: seq<Event>)
    requires Reachable(c, s) && LastSecond(c, s) && s.node.connected
    requires s.pc.Due? && IsDue(s.pc.elapsed, s.pc.next)
    requires TypedProfile(s.put, Put) && TypedProfile(s.get, Get) && TypedProfile(s.leave, Leave)
    requires TwoDue(s.leave.queue, c.duration)
    ensures Reachable(c, t) && LastSecond(c, t) && t.pc.Batch? && t.node.connected
    ensures t.pc.hand == puts + gets + leaves && |leaves| >= 2
    ensures forall e :: e in puts ==> e.Kind() == Put
    ensures forall e :: e in gets ==> e.Kind() == Get
    ensures forall e :: e in leaves ==> e.Kind() == Leave
  {
    var put, get, leave;
    put, puts := PopAll(s.put, s.pc.elapsed);
    get, gets := PopAll(s.get, s.pc.elapsed);
    leave, leaves := PopAll(s.leave, s.pc.elapsed);
    PopsDue(s.leave.queue, s.pc.elapsed, leaves, leave.queue);
    t := DispatchAll(c, s, put, puts, get, gets, leave, leaves);
  }

  lemma DispatchAll(c: Config, s: State, put: Profile, puts: seq<Event>, get: Profile, gets: seq<Event>,
                    leave: Profile, leaves: seq<Event>) returns (t: State)
    requires Reachable(c, s) && LastSecond(c, s) && s.node.connected
    requires s.pc.Due? && IsDue(s.pc.elapsed, s.pc.next)
    requires Taken(s.put, s.pc.elapsed, puts, put) && Taken(s.get, s.pc.elapsed, gets, get)
    requires Taken(s.leave, s.pc.elapsed, leaves, leave)
    ensures Reachable(c, t) && LastSecond(c, t) && t.pc.Batch? && t.node.connected
    ensures t.pc.hand == puts + gets + leaves
  {
    t := s.(put := put, get := get, leave := leave,
            pc := Batch(s.pc.elapsed, s.pc.remaining, s.pc.next, puts + gets + leaves));
    assert ConnectedBatch(s, t, s.pc.elapsed, puts, gets, leaves);
    ReachableStep(c, s, t);
  }

  lemma PopAll(p: Profile, now: nat) returns (p': Profile, list: seq<Event>)
    requires TypedProfile(p, p.op)
    ensures Taken(p, now, list, p') && forall e :: e in list ==> e.Kind() == p.op
  {
    var rest;
    list, rest := PopExists(p.queue, now);
    p' := p.(queue := rest, taken := p.taken + list);
    TakenKinds(p, now, list, p');
  }

  lemma {:induction false} DrainThenKill(c: Config, s: State, front: seq<Event>, leaves: seq<Event>)
    requires WellFormed(c) && Reachable(c, s) && LastSecond(c, s) && s.pc.Batch? && s.node.connected
    requires s.pc.hand == front + leaves && |leaves| >= 2
    requires forall e :: e in front ==> e.PutEvent? || e.GetEvent?
    requires forall e :: e in leaves ==> e.LeaveEvent?
    ensures exists t :: Reachable(c, t) && t.pc.Killed?
    decreases |front|
  {
    if front == [] {
      assert s.pc.hand == leaves;
      assert leaves[0] in leaves && leaves[1] in leaves;
      var t := ProcessNow(c, s, Left(s.node));
      KilledNow(c, t);
    } else {
      assert front[0] in front && s.pc.hand[0] == front[0];
      var n := if front[0].PutEvent? then Stored(s.node) else Fetched(s.node, true);
      var t := ProcessNow(c, s, n);
      assert t.pc.hand == front[1..] + leaves;
      DrainThenKill(c, t, front[1..], leaves);
    }
  }

  lemma LeavesKill(c: Config, s: State)
    requires WellFormed(c) && Reachable(c, s) && LastSecond(c, s) && s.node.connected
    requires s.pc.Due? && IsDue(s.pc.elapsed, s.pc.next)
    requires TypedProfile(s.put, Put) && TypedProfile(s.get, Get) && TypedProfile(s.leave, Leave)
    requires TwoDue(s.leave.queue, c.duration)
    ensures exists t :: Reachable(c, t) && t.pc.Killed?
  {
    var t, puts, gets, leaves := Dispatch(c, s);
    assert forall e :: e in puts + gets ==> e in puts || e in gets;
    DrainThenKill(c, t, puts + gets, leaves);
  }

  lemma HazardKills(c: Config)
    requires WellFormed(c) && Hazard(c)
    ensures exists t :: Reachable(c, t) && t.pc.Killed?
  {
    var s := AfterFirstBatch(c);
    if !s.pc.Killed? {
      var leave := ScheduleLeaves(c);
      if CanFire(c.leave, c.duration) {
        TriggeredBy(c, s, leave, Leave);
      } else if CanFire(c.put, c.duration) {
        TriggeredBy(c, s, leave, Put);
      } else {
        TriggeredBy(c, s, leave, Get);
      }
    }
  }

  lemma TriggeredBy(c: Config, s: State, leave: Profile, op: Op)
    requires WellFormed(c) && Reachable(c, s)
    requires LastSecond(c, s) && s.pc.Check? && s.node.connected && Untouched(c, s)
    requires Scheduled(c.leave, c.duration - 1, leave) && TypedProfile(leave, Leave)
    requires TwoDue(leave.queue, c.duration)
    requires !op.Join? && if op.Leave? then DueAt(leave.queue, c.duration - 1) else CanFire(Initial(c, op), c.duration)
    ensures exists t :: Reachable(c, t) && t.pc.Killed?
  {
    var put := ScheduleOp(c, Put);
    var get := ScheduleOp(c, Get);
    var planned := SecondPlan(c, s, leave, put, get);
    LeavesKill(c, planned);
  }

  /** The controller can kill its own process exactly in the hazardous configurations. */
  lemma KilledIffHazard(c: Config)
    requires WellFormed(c)
    ensures (exists s :: Reachable(c, s) && s.pc.Killed?) <==> Hazard(c)
  {
    if Hazard(c) {
      HazardKills(c);
    } else {
      forall s | Reachable(c, s) ensures !s.pc.Killed? {
        var run :| IsRun(c, run) && run[|run| - 1] == s;
        SafeHolds(c, run);
      }
    }
  }

  function JoinTwice(): Profile {
    Profile(Join, Static, multiset{JoinEvent(1), JoinEvent(2)}, 0, multiset{JoinEvent(1), JoinEvent(2)}, [])
  }

  /** Joins listed at times 1 and 2, and nothing else, can kill the process. */
  lemma TwoJoinsKill()
    ensures var c := Config(3, JoinTwice(), Silent(Leave), Silent(Put), Silent(Get));
            WellFormed(c) && Hazard(c) && exists s :: Reachable(c, s) && s.pc.Killed?
  {
    var c := Config(3, JoinTwice(), Silent(Leave), Silent(Put), Silent(Get));
    assert JoinEvent(1) in c.join.queue;
    assert Holds(c.join.queue, JoinEvent(1), JoinEvent(2));
    KilledIffHazard(c);
  }

  function LeaveNow(): Profile {
    Profile(Leave, Now, multiset{LeaveEvent(0)}, 0, multiset{LeaveEvent(0)}, [])
  }

  function PutOnce(): Profile {
    Profile(Put, Static, multiset{PutEvent(1, "", "")}, 0, multiset{PutEvent(1, "", "")}, [])
  }

  /** So can a single join, when a leave profile that always leaves at once is given the time 0. */
  lemma LeaveAtZeroKills()
    ensures var c := Config(3, JoinOnce(), LeaveNow(), PutOnce(), Silent(Get));
            WellFormed(c) && Hazard(c) && exists s :: Reachable(c, s) && s.pc.Killed?
  {
    var c := Config(3, JoinOnce(), LeaveNow(), PutOnce(), Silent(Get));
    assert JoinEvent(1) in c.join.queue && LeaveEvent(0) in c.leave.queue && PutEvent(1, "", "") in c.put.queue;
    KilledIffHazard(c);
  }

  // ---------- an Interval profile that starts at time 0 ----------

  function Silent(op: Op): Profile {
    Profile(op, Empty, multiset{}, 0, multiset{}, [])
  }

  function JoinOnce(): Profile {
    Profile(Join, Static, multiset{JoinEvent(1)}, 0, multiset{JoinEvent(1)}, [])
  }

  // a node that joins at once, never leaves, and only runs p
  function Lone(p: Profile): Config {
    if p.op.Put? then Config(10, JoinOnce(), Silent(Leave), p, Silent(Get))
    else Config(10, JoinOnce(), Silent(Leave), Silent(Put), p)
  }

  lemma LoneWellFormed(p: Profile)
    requires Fresh(p) && Bounded(p) && (p.op.Put? || p.op.Get?)
    ensures WellFormed(Lone(p)) && CanFire(Lone(p).join, 10) && !Hazard(Lone(p))
  {
    var q := multiset{JoinEvent(1)};
    assert JoinEvent(1) in q;
    forall a, b ensures !Holds(q, a, b) {
      assert |multiset{a, b}| == 2;
    }
  }

  lemma LoneJoins(p: Profile) returns (s: State)
    requires Fresh(p) && Bounded(p) && (p.op.Put? || p.op.Get?)
    ensures WellFormed(Lone(p)) && Reachable(Lone(p), s) && LastSecond(Lone(p), s)
    ensures s.pc == Plan(9, 1) && s.node.connected && Untouched(Lone(p), s)
  {
    LoneWellFormed(p);
    KilledIffHazard(Lone(p));
    var s0 := AfterFirstBatch(Lone(p));
    s := LookAgain(Lone(p), s0);
  }

  // from here the loop plans nothing and goes to sleep
  lemma SleepsUnplanned(c: Config, s: State, t: State) returns (u: State)
    requires Reachable(c, s) && s.pc == Plan(9, 1) && PlanStep(c, s, t) && t.pc == Due(9, 1, 0)
    ensures Reachable(c, u) && u == t.(pc := Sleep(1, 0))
  {
    ReachableStep(c, s, t);
    var idle := t.(pc := Batch(9, 1, 0, []));
    assert DueStep(t, idle);
    ReachableStep(c, t, idle);
    u := idle.(pc := Bottom(idle));
    ReachableStep(c, idle, u);
  }

  lemma StaysUnread(p: Profile) returns (p': Profile)
    requires Fresh(p) && HasZero(p.queue)
    ensures Scheduled(p, 9, p') && NextTime(p'.queue) == 0
  {
    p' := Schedule(p, 10);
    var zero :| zero in p.queue && zero.time == 0;
    assert zero in p'.queue;
  }

  lemma LonePlan(p: Profile, s: State, p': Profile) returns (t: State)
    requires (p.op.Put? || p.op.Get?) && p.kind.Interval?
    requires s.pc == Plan(9, 1) && s.node.connected && Untouched(Lone(p), s)
    requires Scheduled(p, 9, p') && NextTime(p'.queue) == 0
    ensures PlanStep(Lone(p), s, t) && t == s.(pc := Due(9, 1, 0), put := t.put, get := t.get)
  {
    if p.op.Put? {
      t := s.(put := p', pc := Due(9, 1, 0));
    } else {
      t := s.(get := p', pc := Due(9, 1, 0));
    }
    assert NextTime(multiset{}) == 0;
  }

  lemma ZeroStartMissesTicks(p: Profile) returns (s: State)
    requires Fresh(p) && Bounded(p) && (p.op.Put? || p.op.Get?) && p.kind.Interval? && HasZero(p.queue)
    ensures WellFormed(Lone(p)) && Reachable(Lone(p), s) && s.pc.Sleep? && s.node.connected && s.clock == 9.0
    ensures Of(s.issued, p.op) == []
  {
    var s0 := LoneJoins(p);
    var p' := StaysUnread(p);
    var s1 := LonePlan(p, s0, p');
    s := SleepsUnplanned(Lone(p), s0, s1);
    NothingIssued(Lone(p), s0, p.op);
  }

  lemma NothingIssued(c: Config, s: State, op: Op)
    requires WellFormed(c) && Reachable(c, s) && s.Profiles(op) == Initial(c, op)
    ensures Of(s.issued, op) == []
  {
    var run :| IsRun(c, run) && run[|run| - 1] == s;
    AllConservedHolds(c, run);
    assert Conserved(c, s, op);
  }

  lemma NothingIsBehind(p: Profile, now: nat)
    requires p.kind.Interval? && p.kind.frequency >= 1 && p.kind.repetitions >= 1 && now >= p.last
    ensures !CaughtUp(p, now, [])
  {
    var ticks := (now - p.last) / p.kind.frequency;
    MulMonotone(p.kind.repetitions, 1, ticks + 1);
  }

  /** An Interval profile catches up in every run of every configuration exactly when its first
      tick is not at time 0. */
  lemma CatchesUpIff(p: Profile)
    requires Fresh(p) && Bounded(p) && (p.op.Put? || p.op.Get?)
    requires p.kind.Interval? && p.kind.frequency >= 1 && p.kind.repetitions >= 1
    ensures (forall c, s :: WellFormed(c) && Initial(c, p.op) == p && Reachable(c, s) && s.pc.Sleep?
                            && s.node.connected && s.clock >= 0.0
                            ==> CaughtUp(p, Ceil(s.clock), Of(s.issued, p.op)))
            <==> !HasZero(p.queue)
  {
    if HasZero(p.queue) {
      var s := ZeroStartMissesTicks(p);
      assert Initial(Lone(p), p.op) == p;
      assert p.last == 0;
      NothingIsBehind(p, Ceil(s.clock));
    } else {
      forall c, s | WellFormed(c) && Initial(c, p.op) == p && Reachable(c, s) && s.pc.Sleep?
                    && s.node.connected && s.clock >= 0.0
        ensures CaughtUp(p, Ceil(s.clock), Of(s.issued, p.op))
      {
        IntervalCaughtUp(c, s, p.op);
      }
    }
  }
}
