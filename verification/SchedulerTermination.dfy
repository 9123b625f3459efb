/** The event loop comes to an end by itself, whatever the clock does, when every profile is a
    fixed list or an Interval: each time round it waits for a second or uses up an event. */
module SchedulerTermination {
  import opened Clock
  import opened Events
  import opened ProfileModel
  import opened Scheduler
  import opened SchedulerOrder

  ghost predicate Finite(p: Profile) {
    match p.kind
    case Static => true
    case Empty => true
    case Interval(f, _) => f >= 1
    case _ => false
  }

  ghost predicate AllFinite(c: Config) {
    forall op :: Finite(Initial(c, op))
  }

  // ticks of an Interval that can still be generated before they no longer matter
  function TicksLeft(last: nat, f: nat, duration: nat): nat
    requires f >= 1
  {
    if last <= duration then (duration - last) / f + 1 else 0
  }

  /** How often p can still be refilled. A queued event out of reach stays and ends the refilling,
      but as long as an event at time 0 is queued, each round refills once. */
  ghost function Refillings(p: Profile, duration: nat, rounds: nat): nat
    requires p.kind.Interval? && p.kind.frequency >= 1
  {
    (if Far(p.queue) then 0 else TicksLeft(p.last, p.kind.frequency, duration))
      + if HasZero(p.queue) then rounds else 0
  }

  /** How many events p can still supply. */
  ghost function Supply(p: Profile, duration: nat, rounds: nat): nat {
    |p.queue| + if p.kind.Interval? && p.kind.frequency >= 1
                then p.kind.repetitions * Refillings(p, duration, rounds) else 0
  }

  function PcRank(pc: Pc): nat {
    match pc
    case BatchCheck(_, _) => 14
    case Batch(elapsed, _, next, hand) => if hand == [] && elapsed >= next && next != 0 then 13 else 9
    case Check => 12
    case Plan(_, _) => 11
    case Due(_, _, _) => 10
    case Sleep(_, _) => 8
    case _ => 0
  }

  function TimeLeft(duration: nat, clock: real): nat {
    if Ceil(clock) >= duration then 0 else if clock < 0.0 then duration else duration - Ceil(clock)
  }

  /** The profiles have been asked and nothing is due: the loop is going to sleep. */
  ghost predicate Committed(s: State) {
    s.node.connected && match s.pc
                        case Due(_, _, _) => true
                        case Batch(elapsed, _, next, hand) => hand == [] && !IsDue(elapsed, next)
                        case Sleep(_, _) => true
                        case _ => false
  }

  // rounds in which the profiles can still be asked and nothing becomes due
  ghost function RoundsLeft(c: Config, s: State): nat {
    TimeLeft(c.duration, s.clock) + if Committed(s) then 0 else 1
  }

  ghost function Supplies(c: Config, s: State, rounds: nat): nat {
    Supply(s.join, c.duration, rounds) + Supply(s.leave, c.duration, rounds)
    + Supply(s.put, c.duration, rounds) + Supply(s.get, c.duration, rounds)
  }

  ghost function Work(c: Config, s: State): nat {
    TimeLeft(c.duration, s.clock) + Supplies(c, s, RoundsLeft(c, s)) + |s.Hand()|
  }

  /** The measure that falls on every step. */
  ghost function Rank(c: Config, s: State): nat {
    20 * Work(c, s) + PcRank(s.pc)
  }

  // ---------- what the measure relies on ----------

  ghost predicate Steady(p: Profile, op: Op) {
    && Finite(p) && Bounded(p)
    && (p.kind.Interval? ==> op.Put? || op.Get?)
  }

  ghost predicate Planned(c: Config, s: State) {
    s.pc.Due? ==> s.pc.next == Clamp(c.duration, NextEventTime(s))
  }

  lemma SteadyHolds(c: Config, run: seq<State>, op: Op)
    requires WellFormed(c) && IsRun(c, run) && Finite(Initial(c, op))
    ensures Steady(run[|run| - 1].Profiles(op), op)
  {
    AllConservedHolds(c, run);
    assert Conserved(c, run[|run| - 1], op);
  }

  lemma {:induction false} PlannedHolds(c: Config, run: seq<State>)
    requires IsRun(c, run)
    ensures Planned(c, run[|run| - 1])
  {
    if |run| > 1 {
      RunPrefix(c, run);
      PlannedStep(c, run[|run| - 2], run[|run| - 1]);
    }
  }

  lemma PlannedStep(c: Config, s: State, t: State)
    requires Step(c, s, t)
    ensures Planned(c, t)
  {
  }

  // ---------- profiles ----------

  lemma TickUsed(last: nat, f: nat, duration: nat)
    requires f >= 1 && last <= duration
    ensures TicksLeft(last, f, duration) == TicksLeft(last + f, f, duration) + 1
  {
    var d := duration - last;
    if f <= d {
      assert (d - f) / f == d / f - 1 by {
        QuotientIs(d - f, f, d / f - 1);
      }
    } else {
      assert d / f == 0;
    }
  }

  lemma TicksFewer(last: nat, f: nat, duration: nat)
    requires f >= 1
    ensures TicksLeft(last + f, f, duration) <= TicksLeft(last, f, duration)
  {
    if last <= duration {
      TickUsed(last, f, duration);
    }
  }

  // nothing out of reach has been pushed, and so the last time cannot wrap
  lemma WithinReach(p: Profile, now: nat)
    requires Ordered(p, now) && Chained(p.kind) && BatchSize(p.kind) > 0 && now < DRAW_LIMIT && !Far(p.queue)
    ensures p.last < DRAW_LIMIT
    ensures p.queue == multiset{} ==> p.last <= now
  {
    assert Chain(p);
    var e :| e in p.pushed && e.time == p.last;
    assert e in p.taken || e in p.queue;
  }

  // what a refill adds is for one time, and nothing queued before is lost
  lemma RefilledQueue(p: Profile, now: nat, draw: nat, added: seq<Event>, p': Profile)
    requires Refilled(p, now, draw, added, p')
    ensures forall e :: e in p'.queue ==> e in p.queue || e.time == RefillTime(p, now, draw)
    ensures forall e :: e in p.queue ==> e in p'.queue
    ensures Far(p.queue) ==> Far(p'.queue)
    ensures p.queue == multiset{} && RefillTime(p, now, draw) > 0 ==> !HasZero(p'.queue)
  {
  }

  lemma RefillingUsed(p: Profile, now: nat, draw: nat, added: seq<Event>, p': Profile, duration: nat, rounds: nat)
    requires Ordered(p, now) && Steady(p, p.op) && p.kind.Interval? && p.kind.repetitions > 0
    requires NextTime(p.queue) == 0 && Refilled(p, now, draw, added, p') && now < duration <= DRAW_LIMIT
    requires rounds >= 1
    ensures Refillings(p', duration, rounds - 1) < Refillings(p, duration, rounds)
  {
    RefilledQueue(p, now, draw, added, p');
    if Far(p.queue) {
      FarIsSeen(p.queue);
    } else {
      WithinReach(p, now);
      NoWrap(p, now, draw);
      hide Ordered, Far;
      if HasZero(p.queue) {
        TicksFewer(p.last, p.kind.frequency, duration);
      } else {
        EmptyIfUnread(p.queue);
        hide HasZero;
        TickUsed(p.last, p.kind.frequency, duration);
      }
    }
  }

  // a queue that reads as empty with an event in it holds one at time 0
  lemma FarIsSeen(q: multiset<Event>)
    requires NextTime(q) == 0 && Far(q)
    ensures HasZero(q)
  {
    if !HasZero(q) {
      EmptyIfUnread(q);
    }
  }

  lemma Times(n: nat, a: nat, b: nat)
    requires a < b
    ensures n * a + n <= n * b
  {
    MulMonotone(n, a + 1, b);
    assert n * (a + 1) == n * a + n;
  }

  lemma SupplyFewer(p: Profile, duration: nat, rounds: nat, rounds': nat)
    requires rounds' <= rounds
    ensures Supply(p, duration, rounds') <= Supply(p, duration, rounds)
  {
    hide HasZero, Far;
    if p.kind.Interval? && p.kind.frequency >= 1 {
      MulMonotone(p.kind.repetitions, Refillings(p, duration, rounds'), Refillings(p, duration, rounds));
    }
  }

  lemma NeverPushed(p: Profile, now: nat)
    requires Ordered(p, now) && Chained(p.kind) && BatchSize(p.kind) == 0
    ensures p.queue == multiset{}
  {
  }

  lemma SupplyScheduled(p: Profile, now: nat, p': Profile, duration: nat, rounds: nat)
    requires Ordered(p, now) && Steady(p, p.op) && Scheduled(p, now, p') && now < duration <= DRAW_LIMIT
    requires rounds >= 1
    ensures Supply(p', duration, rounds - 1) <= Supply(p, duration, rounds)
  {
    if NextTime(p.queue) == 0 && Refills(p.kind) {
      var draw, added :| Refilled(p, now, draw, added, p');
      assert |p'.queue| == |p.queue| + |added|;
      var n := p.kind.repetitions;
      if n > 0 {
        RefillingUsed(p, now, draw, added, p', duration, rounds);
        hide Refillings, Ordered, Steady;
        Times(n, Refillings(p', duration, rounds - 1), Refillings(p, duration, rounds));
      }
    } else {
      SupplyFewer(p, duration, rounds, rounds - 1);
    }
  }

  lemma SupplyTaken(p: Profile, now: nat, list: seq<Event>, p': Profile, duration: nat, rounds: nat, rounds': nat)
    requires Taken(p, now, list, p') && now < DRAW_LIMIT
    ensures Supply(p', duration, rounds') + |list| <= Supply(p, duration, rounds)
  {
    assert |p.queue| == |list| + |p'.queue|;
    ListFromQueue(p, now, list, p');
    if p.kind.Interval? && p.kind.frequency >= 1 {
      if Far(p.queue) {
        var e :| e in p.queue && e.time >= DRAW_LIMIT;
        assert e !in list;
        assert e in p'.queue;
      }
      MulMonotone(p.kind.repetitions, Refillings(p', duration, rounds'), Refillings(p, duration, rounds));
    }
  }

  lemma EarliestFrom(a: nat, b: nat, d: nat)
    ensures var least := Earliest(Earliest(a, b), d);
            least == a || least == b || least == d
  {
  }

  lemma ReadIsPopped(q: multiset<Event>, now: nat, list: seq<Event>, rest: multiset<Event>)
    requires Popped(q, now, list, rest) && 1 <= NextTime(q) <= now
    ensures list != []
  {
    var e :| IsTop(q, e) && e.time == NextTime(q);
    assert e in multiset(list);
  }

  lemma DueMeansWork(c: Config, s: State, t: State)
    requires s.pc.Due? && DueStep(s, t) && Planned(c, s) && IsDue(s.pc.elapsed, s.pc.next)
    ensures t.Hand() != []
  {
    var now := s.pc.elapsed;
    if s.node.connected {
      var puts, gets, leaves :| ConnectedBatch(s, t, now, puts, gets, leaves);
      EarliestFrom(NextTime(s.leave.queue), NextTime(s.put.queue), NextTime(s.get.queue));
      if s.pc.next == NextTime(s.leave.queue) {
        ReadIsPopped(s.leave.queue, now, leaves, t.leave.queue);
      } else if s.pc.next == NextTime(s.put.queue) {
        ReadIsPopped(s.put.queue, now, puts, t.put.queue);
      } else {
        ReadIsPopped(s.get.queue, now, gets, t.get.queue);
      }
    } else {
      ReadIsPopped(s.join.queue, now, t.Hand(), t.join.queue);
    }
  }

  // ---------- steps ----------

  ghost predicate Ready(c: Config, s: State) {
    && WellFormed(c) && ClockInv(c, s) && Planned(c, s)
    && forall op :: Steady(s.Profiles(op), op) && Ordered(s.Profiles(op), Ceil(s.clock)) && s.Profiles(op).op == op
  }

  lemma SuppliesFewer(c: Config, s: State, rounds: nat, rounds': nat)
    requires rounds' <= rounds
    ensures Supplies(c, s, rounds') <= Supplies(c, s, rounds)
  {
    hide Supply;
    SupplyFewer(s.join, c.duration, rounds, rounds');
    SupplyFewer(s.leave, c.duration, rounds, rounds');
    SupplyFewer(s.put, c.duration, rounds, rounds');
    SupplyFewer(s.get, c.duration, rounds, rounds');
  }

  lemma ReadyProfile(c: Config, s: State, op: Op)
    requires Ready(c, s)
    ensures Steady(s.Profiles(op), s.Profiles(op).op) && Ordered(s.Profiles(op), Ceil(s.clock))
  {
    hide Steady, Ordered, WellFormed, ClockInv, Planned;
  }

  lemma PlanReading(c: Config, s: State)
    requires Ready(c, s) && s.pc.Plan?
    ensures s.pc.elapsed == Ceil(s.clock) < c.duration <= DRAW_LIMIT && RoundsLeft(c, s) >= 1
  {
    hide Steady, Ordered, Planned;
  }

  lemma SupplyPlanned(c: Config, s: State, op: Op, p': Profile)
    requires Ready(c, s) && s.pc.Plan? && Scheduled(s.Profiles(op), s.pc.elapsed, p')
    ensures RoundsLeft(c, s) >= 1
    ensures Supply(p', c.duration, RoundsLeft(c, s) - 1) <= Supply(s.Profiles(op), c.duration, RoundsLeft(c, s))
  {
    hide Ready, Supply, Scheduled, Steady, Ordered, RoundsLeft;
    ReadyProfile(c, s, op);
    PlanReading(c, s);
    SupplyScheduled(s.Profiles(op), s.pc.elapsed, p', c.duration, RoundsLeft(c, s));
  }

  lemma SuppliesPlanned(c: Config, s: State, t: State)
    requires Ready(c, s) && s.pc.Plan? && PlanStep(c, s, t) && s.node.connected
    ensures RoundsLeft(c, s) >= 1
    ensures Supplies(c, t, RoundsLeft(c, s) - 1) <= Supplies(c, s, RoundsLeft(c, s))
  {
    hide Ready, Supply, Scheduled, RoundsLeft;
    SupplyPlanned(c, s, Leave, t.leave);
    SupplyPlanned(c, s, Put, t.put);
    SupplyPlanned(c, s, Get, t.get);
    SupplyFewer(s.join, c.duration, RoundsLeft(c, s), RoundsLeft(c, s) - 1);
  }

  lemma JoinsStay(c: Config, s: State, t: State)
    requires Ready(c, s) && s.pc.Plan? && PlanStep(c, s, t) && !s.node.connected
    ensures t == s.(pc := t.pc) && t.pc.Due?
  {
    hide Ordered, WellFormed, ClockInv, Planned;
    assert Steady(s.Profiles(Join), Join);
  }

  lemma RankPlanned(c: Config, s: State, t: State)
    requires Ready(c, s) && s.pc.Plan? && PlanStep(c, s, t)
    ensures Rank(c, t) < Rank(c, s)
  {
    hide Supply, Ready, Scheduled;
    if s.node.connected {
      SuppliesPlanned(c, s, t);
      hide Supplies;
    } else {
      JoinsStay(c, s, t);
    }
  }

  // the joins do not depend on the rounds
  lemma JoinSupply(c: Config, s: State, rounds: nat, rounds': nat)
    requires Ready(c, s)
    ensures Supply(s.join, c.duration, rounds') == Supply(s.join, c.duration, rounds)
  {
    hide Ordered;
    assert Steady(s.Profiles(Join), Join);
  }

  lemma WorkDispatched(c: Config, s: State, t: State)
    requires Ready(c, s) && s.pc.Due? && DueStep(s, t)
    ensures Work(c, t) <= Work(c, s)
  {
    hide Supply, Ordered, Steady;
    var now, rounds, rounds' := s.pc.elapsed, RoundsLeft(c, s), RoundsLeft(c, t);
    if IsDue(now, s.pc.next) {
      if s.node.connected {
        var puts, gets, leaves :| ConnectedBatch(s, t, now, puts, gets, leaves);
        SupplyTaken(s.leave, now, leaves, t.leave, c.duration, rounds, rounds');
        SupplyTaken(s.put, now, puts, t.put, c.duration, rounds, rounds');
        SupplyTaken(s.get, now, gets, t.get, c.duration, rounds, rounds');
        JoinSupply(c, s, rounds, rounds');
      } else {
        SupplyTaken(s.join, now, t.Hand(), t.join, c.duration, rounds, rounds');
      }
    }
  }

  lemma RankDispatched(c: Config, s: State, t: State)
    requires Ready(c, s) && s.pc.Due? && DueStep(s, t)
    ensures Rank(c, t) < Rank(c, s)
  {
    WorkDispatched(c, s, t);
    if IsDue(s.pc.elapsed, s.pc.next) {
      DueMeansWork(c, s, t);
    }
  }

  lemma TimeLeftShrinks(duration: nat, clock: real, later: real)
    requires 0.0 <= clock <= later
    ensures TimeLeft(duration, later) <= TimeLeft(duration, clock)
    ensures clock <= duration as real - 1.0 && later >= clock + 1.0 ==>
              TimeLeft(duration, later) < TimeLeft(duration, clock)
  {
    CeilMonotone(clock, later);
    if later >= clock + 1.0 {
      CeilShift(clock, 1, later);
    }
  }

  lemma SuppliesSame(c: Config, s: State, t: State, rounds: nat)
    requires t.join == s.join && t.leave == s.leave && t.put == s.put && t.get == s.get
    ensures Supplies(c, t, rounds) == Supplies(c, s, rounds)
  {
  }

  lemma RankProcessed(c: Config, s: State, t: State)
    requires Ready(c, s) && s.pc.Batch? && s.pc.hand != [] && ProcessStep(s, t)
    ensures if FailedJoin(s, t) then Rank(c, t) <= Rank(c, s) else Rank(c, t) < Rank(c, s)
  {
    hide Supply, Supplies, Ordered, Steady;
    TimeLeftShrinks(c.duration, s.clock, t.clock);
    SuppliesFewer(c, s, RoundsLeft(c, s), RoundsLeft(c, t));
    SuppliesSame(c, s, t, RoundsLeft(c, t));
  }

  lemma RankSlept(c: Config, s: State, t: State)
    requires Ready(c, s) && s.pc.Sleep? && Step(c, s, t)
    ensures Rank(c, t) < Rank(c, s)
  {
    hide Supply, Supplies, Ordered, Steady;
    TimeLeftShrinks(c.duration, s.clock, t.clock);
    SuppliesFewer(c, s, RoundsLeft(c, s), RoundsLeft(c, t));
    SuppliesSame(c, s, t, RoundsLeft(c, t));
  }

  lemma RankChecked(c: Config, s: State, t: State)
    requires Ready(c, s) && (s.pc.Check? || s.pc.BatchCheck?) && Step(c, s, t)
    ensures Rank(c, t) < Rank(c, s)
  {
    hide Supply, Supplies, Ordered, Steady;
    TimeLeftShrinks(c.duration, s.clock, t.clock);
    SuppliesFewer(c, s, RoundsLeft(c, s), RoundsLeft(c, t));
    SuppliesSame(c, s, t, RoundsLeft(c, t));
  }

  lemma RankBottom(c: Config, s: State)
    requires Ready(c, s) && s.pc.Batch? && s.pc.hand == []
    ensures Rank(c, s.(pc := Bottom(s))) < Rank(c, s)
  {
    hide Supply, Ordered, Steady;
  }

  /** Every step uses up something, except a failed attempt to join, which uses nothing. */
  lemma RankFalls(c: Config, s: State, t: State)
    requires Ready(c, s) && Step(c, s, t)
    ensures Rank(c, t) + 1 + s.node.joinMisses <= Rank(c, s) + t.node.joinMisses
  {
    if s.pc.Plan? {
      RankPlanned(c, s, t);
    } else if s.pc.Due? {
      RankDispatched(c, s, t);
    } else if s.pc.Sleep? {
      RankSlept(c, s, t);
    } else if s.pc.Batch? && s.pc.hand == [] {
      RankBottom(c, s);
    } else if s.pc.Batch? {
      RankProcessed(c, s, t);
    } else {
      RankChecked(c, s, t);
    }
  }

  lemma ReadyHolds(c: Config, run: seq<State>)
    requires WellFormed(c) && AllFinite(c) && IsRun(c, run)
    ensures Ready(c, run[|run| - 1])
  {
    hide Steady, Ordered;
    ClockHolds(c, run);
    PlannedHolds(c, run);
    AllConservedHolds(c, run);
    var s := run[|run| - 1];
    forall op
      ensures Steady(s.Profiles(op), op) && Ordered(s.Profiles(op), Ceil(s.clock)) && s.Profiles(op).op == op
    {
      assert Finite(Initial(c, op));
      SteadyHolds(c, run, op);
      OrderedHolds(c, run, op);
      assert Conserved(c, s, op);
    }
  }

  /** No run is longer than its configuration allows, apart from failed attempts to join. */
  lemma {:induction false} RunsAreBounded(c: Config, run: seq<State>)
    requires WellFormed(c) && AllFinite(c) && IsRun(c, run)
    ensures |run| - 1 <= Rank(c, Start(c)) - Rank(c, run[|run| - 1]) + run[|run| - 1].node.joinMisses
    decreases |run|
  {
    if |run| > 1 {
      RunPrefix(c, run);
      var before := run[..|run| - 1];
      RunsAreBounded(c, before);
      ReadyHolds(c, before);
      RankFalls(c, before[|before| - 1], run[|run| - 1]);
    }
  }
}
