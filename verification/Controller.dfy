/** The controller's event loop in its own form. Every statement that matters is matched by a
    step of the transition system: the loop's ghost trace is a run. */
module Controller {
  import opened Clock
  import opened Events
  import opened Profiles
  import M = ProfileModel
  import S = Scheduler
  import N = SchedulerNode
  import O = SchedulerOrder
  import Safety = SchedulerSafety
  import T = SchedulerTermination

  type Quantum = q: real | 0.0 < q <= 1.0 witness 1.0

  /** Real time. A DHT operation takes at least quantum, however small. */
  class WallClock {
    var now: real
    const quantum: Quantum

    constructor (quantum: Quantum)
      ensures now == 0.0 && this.quantum == quantum
    {
      now := 0.0;
      this.quantum := quantum;
    }

    method Pass(least: real)
      modifies this
      ensures now >= old(now) + least
    {
      var spare: real :| spare >= 0.0;
      now := now + least + spare;
    }
  }

  ghost function FailJoins(n: S.Node, k: nat): S.Node {
    n.(joinCount := n.joinCount + k, joinMisses := n.joinMisses + k)
  }

  class DhtNode {
    var connected: bool
    var joinCount: nat
    var joinHits: nat
    var joinMisses: nat
    var leaveCount: nat
    var putCount: nat
    var getCount: nat
    var getHits: nat
    var getMisses: nat
    ghost var misplaced: nat

    ghost function Value(): S.Node
      reads this
    {
      S.Node(connected, joinCount, joinHits, joinMisses, leaveCount, putCount, getCount, getHits, getMisses, misplaced)
    }

    constructor ()
      ensures Value() == S.NEW_NODE
    {
      connected := false;
      joinCount, joinHits, joinMisses, leaveCount, putCount := 0, 0, 0, 0, 0;
      getCount, getHits, getMisses, misplaced := 0, 0, 0, 0;
    }

    /** Retries until doJoin succeeds; here doJoin fails a finite, arbitrary number of times. */
    method ProcessJoinEvent(clock: WallClock) returns (exited: bool, ghost failures: nat)
      modifies this, clock
      ensures exited == old(connected)
      ensures exited ==> Value() == old(Value()) && clock.now == old(clock.now)
      ensures !exited ==> Value() == S.Joined(FailJoins(old(Value()), failures))
      ensures !exited ==> connected && joinHits == old(joinHits) + 1 && joinMisses == old(joinMisses) + failures
                          && joinCount == old(joinCount) + failures + 1
      ensures !exited ==> clock.now >= old(clock.now) + failures as real + clock.quantum
    {
      failures := 0;
      if connected {
        return true, 0;
      }
      var tries: nat := *;
      var success := false;
      while !success
        invariant Value() == if success then old(FailJoins(Value(), failures)).(
                                joinCount := old(joinCount) + failures + 1, joinHits := old(joinHits) + 1)
                             else old(FailJoins(Value(), failures))
        invariant clock.now >= old(clock.now) + failures as real + (if success then clock.quantum else 0.0)
        decreases tries, !success
      {
        clock.Pass(clock.quantum);
        success := tries == 0; // doJoin()
        joinCount := joinCount + 1;
        if success {
          joinHits := joinHits + 1;
        } else {
          joinMisses := joinMisses + 1;
          clock.Pass(1.0);
          failures := failures + 1;
          tries := tries - 1;
        }
      }
      connected := true;
      exited := false;
    }

    method ProcessLeaveEvent(clock: WallClock) returns (exited: bool)
      modifies this, clock
      ensures exited == !old(connected)
      ensures exited ==> Value() == old(Value()) && clock.now == old(clock.now)
      ensures !exited ==> Value() == S.Left(old(Value())) && clock.now >= old(clock.now) + clock.quantum
      ensures !exited ==> !connected && leaveCount == old(leaveCount) + 1
    {
      if !connected {
        return true;
      }
      clock.Pass(clock.quantum); // doLeave()
      leaveCount := leaveCount + 1;
      connected := false;
      exited := false;
    }

    method ProcessPutEvent(event: Event, clock: WallClock)
      modifies this, clock
      ensures Value() == S.Stored(old(Value()))
      ensures connected == old(connected) && putCount == old(putCount) + if connected then 1 else 0
      ensures clock.now >= old(clock.now)
      ensures old(connected) ==> clock.now >= old(clock.now) + clock.quantum
    {
      if !connected {
        misplaced := misplaced + 1;
        return;
      }
      clock.Pass(clock.quantum); // doPut(event)
      putCount := putCount + 1;
    }

    method ProcessGetEvent(event: Event, clock: WallClock) returns (success: bool)
      modifies this, clock
      ensures Value() == S.Fetched(old(Value()), success)
      ensures connected == old(connected) && getCount == old(getCount) + if connected then 1 else 0
      ensures getHits == old(getHits) + if connected && success then 1 else 0
      ensures getMisses == old(getMisses) + if connected && !success then 1 else 0
      ensures clock.now >= old(clock.now)
      ensures old(connected) ==> clock.now >= old(clock.now) + clock.quantum
    {
      if !connected {
        misplaced := misplaced + 1;
        return false;
      }
      clock.Pass(clock.quantum);
      success := *; // doGet(event)
      if success {
        getHits := getHits + 1;
      } else {
        getMisses := getMisses + 1;
      }
      getCount := getCount + 1;
    }
  }

  class ControllerWorkloadProfile {
    const joinProfile: Profile
    const leaveProfile: Profile
    const putProfile: Profile
    const getProfile: Profile

    ghost predicate Valid() {
      && joinProfile.op == Join && leaveProfile.op == Leave && putProfile.op == Put && getProfile.op == Get
      && joinProfile.eventQueue != leaveProfile.eventQueue && joinProfile.eventQueue != putProfile.eventQueue
      && joinProfile.eventQueue != getProfile.eventQueue && leaveProfile.eventQueue != putProfile.eventQueue
      && leaveProfile.eventQueue != getProfile.eventQueue && putProfile.eventQueue != getProfile.eventQueue
    }

    ghost function Repr(): set<object> {
      joinProfile.Repr() + leaveProfile.Repr() + putProfile.Repr() + getProfile.Repr()
    }

    constructor (join: Profile, leave: Profile, put: Profile, get: Profile)
      requires join.op == Join && leave.op == Leave && put.op == Put && get.op == Get
      requires join.Repr() !! leave.Repr() !! put.Repr() !! get.Repr()
      ensures Valid()
      ensures joinProfile == join && leaveProfile == leave && putProfile == put && getProfile == get
    {
      joinProfile, leaveProfile, putProfile, getProfile := join, leave, put, get;
    }

    // s with the profiles as they are now
    ghost function Into(s: S.State): S.State
      reads Repr()
    {
      s.(join := joinProfile.Value(), leave := leaveProfile.Value(),
         put := putProfile.Value(), get := getProfile.Value())
    }

    method Earlier(ret: nat, aux: nat) returns (r: nat)
      ensures r == S.Earliest(ret, aux)
    {
      r := ret;
      if ret == 0 || (aux < ret && aux != 0) {
        r := aux;
      }
    }

    method NextLeaveOrPut(currentTime: nat, ghost s: S.State) returns (ret: nat)
      requires Valid() && Into(s) == s
      modifies Repr()
      ensures M.Scheduled(s.leave, currentTime, leaveProfile.Value())
      ensures M.Scheduled(s.put, currentTime, putProfile.Value())
      ensures joinProfile.Value() == s.join && getProfile.Value() == s.get
      ensures ret == S.Earliest(NextTime(leaveProfile.eventQueue.queue), NextTime(putProfile.eventQueue.queue))
    {
      ghost var draw, time;
      ret, draw, time := leaveProfile.ScheduleNextEvent(currentTime);
      ghost var leave := leaveProfile.Value();
      assert putProfile.Value() == s.put;
      var aux;
      aux, draw, time := putProfile.ScheduleNextEvent(currentTime);
      assert leaveProfile.Value() == leave;
      ret := Earlier(ret, aux);
    }

    method NextWhileConnected(currentTime: nat, ghost s: S.State) returns (ret: nat)
      requires Valid() && Into(s) == s && s.node.connected
      modifies Repr()
      ensures M.Scheduled(s.leave, currentTime, leaveProfile.Value())
      ensures M.Scheduled(s.put, currentTime, putProfile.Value())
      ensures M.Scheduled(s.get, currentTime, getProfile.Value())
      ensures joinProfile.Value() == s.join && ret == S.NextEventTime(Into(s))
    {
      hide M.Scheduled;
      ret := NextLeaveOrPut(currentTime, s);
      ghost var leave, put := leaveProfile.Value(), putProfile.Value();
      var aux;
      ghost var draw, time;
      aux, draw, time := getProfile.ScheduleNextEvent(currentTime);
      assert leaveProfile.Value() == leave && putProfile.Value() == put;
      ret := Earlier(ret, aux);
    }

    /** The earliest reading, where 0 means "no event", of the profiles that matter now. */
    method GetNextEventTime(currentTime: nat, connected: bool, ghost s: S.State) returns (ret: nat)
      requires Valid() && Into(s) == s && connected == s.node.connected
      modifies Repr()
      ensures S.Replanned(s, Into(s), currentTime) && ret == S.NextEventTime(Into(s))
      ensures connected ==> joinProfile.Value() == s.join
      ensures connected ==> S.IsLeast(ret, NextTime(leaveProfile.eventQueue.queue),
                                    NextTime(putProfile.eventQueue.queue), NextTime(getProfile.eventQueue.queue))
      ensures !connected ==> ret == NextTime(joinProfile.eventQueue.queue) && Into(s) == s.(join := joinProfile.Value())
    {
      if connected {
        ret := NextWhileConnected(currentTime, s);
        S.EarliestIsLeast(NextTime(leaveProfile.eventQueue.queue), NextTime(putProfile.eventQueue.queue),
                        NextTime(getProfile.eventQueue.queue));
      } else {
        ghost var draw, time;
        ret, draw, time := joinProfile.ScheduleNextEvent(currentTime);
      }
    }

    method GetPutAndGetEvents(currentTime: nat, ghost s: S.State) returns (puts: seq<Event>, gets: seq<Event>)
      requires Valid() && Into(s) == s
      modifies Repr()
      ensures M.Taken(s.put, currentTime, puts, putProfile.Value())
      ensures M.Taken(s.get, currentTime, gets, getProfile.Value())
      ensures joinProfile.Value() == s.join && leaveProfile.Value() == s.leave
    {
      puts := putProfile.GetEvents(currentTime);
      ghost var put := putProfile.Value();
      assert getProfile.Value() == s.get;
      gets := getProfile.GetEvents(currentTime);
      assert putProfile.Value() == put;
    }

    method GetLeaveEvents(currentTime: nat, ghost s: S.State) returns (leaves: seq<Event>)
      requires Valid() && Into(s) == s
      modifies Repr()
      ensures M.Taken(s.leave, currentTime, leaves, leaveProfile.Value())
      ensures Into(s) == s.(leave := leaveProfile.Value())
    {
      leaves := leaveProfile.GetEvents(currentTime);
    }

    method GetJoinEvents(currentTime: nat, ghost s: S.State) returns (joins: seq<Event>)
      requires Valid() && Into(s) == s
      modifies Repr()
      ensures M.Taken(s.join, currentTime, joins, joinProfile.Value())
      ensures Into(s) == s.(join := joinProfile.Value())
    {
      joins := joinProfile.GetEvents(currentTime);
    }
  }

  // ---------- the loop ----------

  ghost function Quanta(duration: nat, q: Quantum, now: real): nat {
    if now > duration as real then 0 else ((duration as real - now) / q).Floor + 1
  }

  lemma MulLess(a: real, b: real, q: Quantum)
    requires a < b
    ensures a * q < b * q
  {
  }

  lemma DivStep(x: real, y: real, q: Quantum)
    requires x >= y + q && y >= 0.0
    ensures (x / q).Floor > (y / q).Floor
  {
    var a, b := x / q, y / q;
    assert a * q == x && (b + 1.0) * q == y + q;
    if a < b + 1.0 {
      MulLess(a, b + 1.0, q);
    }
    assert a.Floor >= (b + 1.0).Floor;
  }

  lemma QuantaFall(duration: nat, q: Quantum, now: real, later: real)
    requires now <= duration as real && later >= now + q
    ensures Quanta(duration, q, later) < Quanta(duration, q, now)
  {
    if later <= duration as real {
      DivStep(duration as real - now, duration as real - later, q);
    }
  }

  ghost function CheckedAt(c: S.Config, s: S.State, now: real): S.State
    requires s.pc.Check? || s.pc.BatchCheck?
  {
    if s.pc.Check? then S.AfterCheck(c, s, now) else S.AfterBatchCheck(c, s, now)
  }

  lemma CheckSteps(c: S.Config, run: seq<S.State>, s: S.State, now: real)
    requires S.WellFormed(c) && S.IsRun(c, run) && run[|run| - 1] == s && now >= s.clock
    requires s.pc.Check? || s.pc.BatchCheck?
    ensures S.Step(c, s, CheckedAt(c, s, now))
    ensures CheckedAt(c, s, now) == s.(clock := now, pc := CheckedAt(c, s, now).pc)
    ensures Done(c.duration, now) <==> CheckedAt(c, s, now).pc.Returned?
    ensures Done(c.duration, now) <==> now > c.duration as real - 1.0
    ensures !Done(c.duration, now) ==>
              Elapsed(c.duration, now) == Ceil(now) && Remaining(c.duration, now) == c.duration - Ceil(now)
    ensures !Done(c.duration, now) ==>
              var elapsed, remaining := Elapsed(c.duration, now), Remaining(c.duration, now);
              CheckedAt(c, s, now).pc == if s.pc.Check? then S.Plan(elapsed, remaining)
                                         else S.Batch(elapsed, remaining, s.pc.next, s.pc.hand)
  {
    S.ClockHolds(c, run);
    CheckMeaning(c.duration, now);
  }

  class DhtperfController {
    const duration: nat
    const profile: ControllerWorkloadProfile
    const node: DhtNode
    const clock: WallClock
    ghost const config: S.Config
    ghost var pc: S.Pc
    ghost var issued: seq<Event>
    ghost var trace: seq<S.State>

    ghost function State(): S.State
      reads this, clock, node, profile.Repr()
    {
      S.State(clock.now, pc, profile.joinProfile.Value(), profile.leaveProfile.Value(),
              profile.putProfile.Value(), profile.getProfile.Value(), node.Value(), issued)
    }

    /** What has happened so far is a run of the transition system. */
    ghost predicate OnTrace()
      reads this, clock, node, profile.Repr()
    {
      && S.WellFormed(config) && duration == config.duration && profile.Valid()
      && S.IsRun(config, trace) && trace[|trace| - 1] == State()
    }

    constructor (duration: nat, profile: ControllerWorkloadProfile, node: DhtNode, clock: WallClock)
      requires profile.Valid() && clock.now == 0.0 && node.Value() == S.NEW_NODE && duration <= M.DRAW_LIMIT
      requires M.Fresh(profile.joinProfile.Value()) && M.Bounded(profile.joinProfile.Value())
      requires M.Fresh(profile.leaveProfile.Value()) && M.Bounded(profile.leaveProfile.Value())
      requires M.Fresh(profile.putProfile.Value()) && M.Bounded(profile.putProfile.Value())
      requires M.Fresh(profile.getProfile.Value()) && M.Bounded(profile.getProfile.Value())
      ensures OnTrace() && |trace| == 1 && this.profile == profile && this.duration == duration
    {
      this.duration, this.profile, this.node, this.clock := duration, profile, node, clock;
      config := S.Config(duration, profile.joinProfile.Value(), profile.leaveProfile.Value(),
                         profile.putProfile.Value(), profile.getProfile.Value());
      pc, issued := S.Check, [];
      new;
      trace := [State()];
    }

    ghost method Record(s: S.State, t: S.State)
      requires S.WellFormed(config) && duration == config.duration && profile.Valid()
      requires S.IsRun(config, trace) && trace[|trace| - 1] == s && S.Step(config, s, t)
      requires State() == t
      modifies this`trace
      ensures OnTrace()
    {
      S.RunExtend(config, trace, t);
      trace := trace + [t];
    }

    /** DHTPERF_CHECK_DONE */
    method CheckDone() returns (done: bool, elapsed: nat, remaining: int)
      requires OnTrace() && (pc.Check? || pc.BatchCheck?)
      modifies clock, this`pc, this`trace
      ensures OnTrace() && clock.now >= old(clock.now)
      ensures done ==> pc.Returned?
      ensures done <==> clock.now > duration as real - 1.0
      ensures !done ==> elapsed == Ceil(clock.now) && remaining == duration - elapsed
      ensures !done ==> pc == if old(pc).Check? then S.Plan(elapsed, remaining)
                              else S.Batch(elapsed, remaining, old(pc.next), old(pc.hand))
    {
      hide S.IsRun, S.Step, S.WellFormed, S.AfterCheck, S.AfterBatchCheck, Remaining;
      ghost var s := State();
      S.ClockHolds(config, trace);
      clock.Pass(0.0);
      ghost var t := CheckedAt(config, s, clock.now);
      CheckSteps(config, trace, s, clock.now);
      remaining := Remaining(duration, clock.now);
      elapsed := (duration - remaining) % TIME_UNITS;
      done := remaining < 0 || elapsed >= duration;
      pc := t.pc;
      Record(s, t);
    }

    /** Notes that event, the first in hand at s, has been carried out. */
    ghost method Issue(s: S.State, event: Event, rest: seq<Event>)
      requires S.WellFormed(config) && duration == config.duration && profile.Valid()
      requires S.IsRun(config, trace) && trace[|trace| - 1] == s
      requires s.pc.Batch? && s.pc.hand == [event] + rest && clock.now >= s.clock
      requires State() == s.(clock := clock.now, node := node.Value())
      requires S.ProcessStep(s, S.Processed(s, clock.now, node.Value()))
      modifies this`pc, this`issued, this`trace
      ensures OnTrace() && pc == S.BatchCheck(s.pc.next, rest)
    {
      issued := issued + [event];
      pc := S.BatchCheck(s.pc.next, rest);
      Record(s, State());
    }

    ghost method Exit(s: S.State)
      requires S.WellFormed(config) && duration == config.duration && profile.Valid()
      requires S.IsRun(config, trace) && trace[|trace| - 1] == s && State() == s
      requires s.pc.Batch? && s.pc.hand != [] && S.WrongState(s.node.connected, s.pc.hand[0])
      modifies this`pc, this`trace
      ensures OnTrace() && pc.Killed?
    {
      pc := S.Killed(s.pc.hand);
      Record(s, State());
    }

    method Join(event: Event, ghost rest: seq<Event>) returns (exited: bool)
      requires event.JoinEvent? && OnTrace() && pc.Batch? && pc.hand == [event] + rest
      modifies clock, node, this`pc, this`issued, this`trace
      ensures OnTrace()
      ensures if exited then pc.Killed? && clock.now == old(clock.now)
              else pc == S.BatchCheck(old(pc.next), rest) && clock.now >= old(clock.now) + clock.quantum
    {
      ghost var s := State();
      ghost var failures;
      exited, failures := node.ProcessJoinEvent(clock);
      if exited {
        Exit(s);
      } else {
        s := Retry(s, failures);
        Issue(s, event, rest);
      }
    }

    method Leave(event: Event, ghost rest: seq<Event>) returns (exited: bool)
      requires event.LeaveEvent? && OnTrace() && pc.Batch? && pc.hand == [event] + rest
      modifies clock, node, this`pc, this`issued, this`trace
      ensures OnTrace()
      ensures if exited then pc.Killed? && clock.now == old(clock.now)
              else pc == S.BatchCheck(old(pc.next), rest) && clock.now >= old(clock.now) + clock.quantum
    {
      ghost var s := State();
      exited := node.ProcessLeaveEvent(clock);
      if exited {
        Exit(s);
      } else {
        Issue(s, event, rest);
      }
    }

    method PutOrGet(event: Event, ghost rest: seq<Event>)
      requires (event.PutEvent? || event.GetEvent?) && OnTrace() && pc.Batch? && pc.hand == [event] + rest
      modifies clock, node, this`pc, this`issued, this`trace
      ensures OnTrace() && pc == S.BatchCheck(old(pc.next), rest)
      ensures clock.now >= old(clock.now)
      ensures old(node.connected) ==> clock.now >= old(clock.now) + clock.quantum
    {
      ghost var s := State();
      if event.PutEvent? {
        node.ProcessPutEvent(event, clock);
      } else {
        var _ := node.ProcessGetEvent(event, clock);
      }
      Issue(s, event, rest);
    }

    // the failed attempts before a join succeeds
    ghost method Retry(s: S.State, failures: nat) returns (t: S.State)
      requires S.WellFormed(config) && S.IsRun(config, trace) && trace[|trace| - 1] == s
      requires s.pc.Batch? && s.pc.hand != [] && s.pc.hand[0].JoinEvent? && !s.node.connected
      modifies this`trace
      ensures S.IsRun(config, trace) && trace[|trace| - 1] == t
      ensures t == s.(clock := s.clock + failures as real, node := FailJoins(s.node, failures))
    {
      t := s;
      var i := 0;
      while i < failures
        invariant i <= failures && S.IsRun(config, trace) && trace[|trace| - 1] == t
        invariant t == s.(clock := s.clock + i as real, node := FailJoins(s.node, i))
      {
        i := i + 1;
        var next := s.(clock := s.clock + i as real, node := FailJoins(s.node, i));
        assert S.FailedJoin(t, next);
        S.RunExtend(config, trace, next);
        trace := trace + [next];
        t := next;
      }
    }

    method Plan(elapsed: nat, ghost remaining: int) returns (nextEvent: nat)
      requires OnTrace() && pc == S.Plan(elapsed, remaining)
      modifies profile.Repr(), this`pc, this`trace
      ensures OnTrace() && pc == S.Due(elapsed, remaining, nextEvent)
    {
      hide S.Replanned, S.NextEventTime, S.WellFormed, S.IsRun;
      ghost var s, mid := State(), State();
      nextEvent, mid := AskProfiles(elapsed, s);
      nextEvent := if nextEvent > duration then 0 else nextEvent;
      NotePlan(s, mid);
    }

    method AskProfiles(elapsed: nat, ghost s: S.State) returns (nextEvent: nat, ghost mid: S.State)
      requires profile.Valid() && s == State()
      modifies profile.Repr()
      ensures S.Replanned(s, mid, elapsed) && nextEvent == S.NextEventTime(mid) && State() == mid
      ensures mid == s.(join := mid.join, leave := mid.leave, put := mid.put, get := mid.get)
    {
      hide S.Replanned, S.NextEventTime;
      nextEvent := profile.GetNextEventTime(elapsed, node.connected, s);
      mid := profile.Into(s);
    }

    ghost method NotePlan(s: S.State, mid: S.State)
      requires S.WellFormed(config) && duration == config.duration && profile.Valid()
      requires S.IsRun(config, trace) && trace[|trace| - 1] == s && s.pc.Plan?
      requires S.Replanned(s, mid, s.pc.elapsed)
      requires mid == s.(join := mid.join, leave := mid.leave, put := mid.put, get := mid.get)
      requires State() == mid
      modifies this`pc, this`trace
      ensures OnTrace()
      ensures pc == S.Due(s.pc.elapsed, s.pc.remaining, S.Clamp(duration, S.NextEventTime(mid)))
    {
      hide S.Replanned, S.NextEventTime, S.WellFormed, S.IsRun;
      trace := PlanExtends(config, trace, s, mid);
      pc := S.Due(s.pc.elapsed, s.pc.remaining, S.Clamp(duration, S.NextEventTime(mid)));
    }

    method TakeConnected(elapsed: nat) returns (puts: seq<Event>, gets: seq<Event>, leaves: seq<Event>)
      requires OnTrace() && pc.Due? && pc.elapsed == elapsed && S.IsDue(elapsed, pc.next) && node.connected
      modifies profile.Repr(), this`pc, this`trace
      ensures OnTrace() && puts + gets + leaves != []
      ensures pc == S.Batch(elapsed, old(pc.remaining), old(pc.next), puts + gets + leaves)
    {
      hide M.Taken, S.Step, S.WellFormed, S.IsRun;
      ghost var s := State();
      puts, gets := profile.GetPutAndGetEvents(elapsed, s);
      ghost var mid := profile.Into(s);
      leaves := profile.GetLeaveEvents(elapsed, mid);
      trace := DueExtends(config, trace, s, profile.Into(s), puts, gets, leaves);
      pc := S.Batch(elapsed, s.pc.remaining, s.pc.next, puts + gets + leaves);
    }

    method TakeJoins(elapsed: nat) returns (joins: seq<Event>)
      requires OnTrace() && pc.Due? && pc.elapsed == elapsed && S.IsDue(elapsed, pc.next) && !node.connected
      modifies profile.Repr(), this`pc, this`trace
      ensures OnTrace() && joins != [] && joins[0].JoinEvent?
      ensures pc == S.Batch(elapsed, old(pc.remaining), old(pc.next), joins)
    {
      hide M.Taken, S.Step, S.WellFormed, S.IsRun;
      ghost var s := State();
      joins := profile.GetJoinEvents(elapsed, s);
      trace := JoinsExtend(config, trace, s, profile.Into(s), joins);
      pc := S.Batch(elapsed, s.pc.remaining, s.pc.next, joins);
    }
  
    /** One list of a batch; rest is what the batch still holds after it. */
    method ProcessAll(events: seq<Event>, ghost rest: seq<Event>, elapsed0: nat, remaining0: int)
      returns (over: bool, elapsed: nat, remaining: int)
      requires OnTrace() && pc.Batch? && pc.hand == events + rest
      requires pc.elapsed == elapsed0 && pc.remaining == remaining0
      modifies clock, node, this`pc, this`issued, this`trace
      ensures OnTrace() && clock.now >= old(clock.now)
      ensures over ==> pc.Returned? || pc.Killed?
      ensures !over ==> pc == S.Batch(elapsed, remaining, old(pc.next), rest)
      ensures events == [] ==> !over && node.Value() == old(node.Value())
      ensures !over && events != [] && (events[0].JoinEvent? || old(node.connected)) ==>
                clock.now >= old(clock.now) + clock.quantum
    {
      hide OnTrace;
      elapsed, remaining := elapsed0, remaining0;
      var i := 0;
      assert events[0..] == events;
      while i < |events|
        invariant i <= |events| && OnTrace() && clock.now >= old(clock.now)
        invariant pc == S.Batch(elapsed, remaining, old(pc.next), events[i..] + rest)
        invariant i == 0 ==> node.Value() == old(node.Value())
        invariant i > 0 && (events[0].JoinEvent? || old(node.connected)) ==>
                    clock.now >= old(clock.now) + clock.quantum
      {
        var event := events[i];
        ghost var after := events[i + 1..] + rest;
        assert events[i..] + rest == [event] + after;
        var exited := ProcessEvent(event, after);
        if exited {
          return true, elapsed, remaining;
        }
        var done;
        done, elapsed, remaining := CheckDone();
        if done {
          return true, elapsed, remaining;
        }
        i := i + 1;
      }
      assert events[i..] + rest == rest;
      over := false;
    }

    method ProcessEvent(event: Event, ghost rest: seq<Event>) returns (exited: bool)
      requires OnTrace() && pc.Batch? && pc.hand == [event] + rest
      modifies clock, node, this`pc, this`issued, this`trace
      ensures OnTrace() && clock.now >= old(clock.now)
      ensures if exited then pc.Killed? else pc == S.BatchCheck(old(pc.next), rest)
      ensures !exited && (event.JoinEvent? || old(node.connected)) ==> clock.now >= old(clock.now) + clock.quantum
    {
      hide OnTrace;
      exited := false;
      match event {
        case JoinEvent(_) => exited := Join(event, rest);
        case LeaveEvent(_) => exited := Leave(event, rest);
        case _ => PutOrGet(event, rest);
      }
    }

    /** Everything that is due now. The real clock is later by a quantum afterwards. */
    method Dispatch(elapsed0: nat, remaining0: int) returns (over: bool, elapsed: nat, remaining: int)
      requires OnTrace() && pc.Due? && S.IsDue(pc.elapsed, pc.next)
      requires pc.elapsed == elapsed0 && pc.remaining == remaining0
      modifies clock, node, profile.Repr(), this`pc, this`issued, this`trace
      ensures OnTrace() && (over ==> pc.Returned? || pc.Killed?)
      ensures !over ==> pc == S.Batch(elapsed, remaining, old(pc.next), [])
      ensures !over ==> clock.now >= old(clock.now) + clock.quantum
    {
      hide OnTrace;
      if node.connected {
        over, elapsed, remaining := DispatchConnected(elapsed0, remaining0);
      } else {
        var joins := TakeJoins(elapsed0);
        assert joins + [] == joins;
        over, elapsed, remaining := ProcessAll(joins, [], elapsed0, remaining0);
      }
    }

    method DispatchConnected(elapsed0: nat, remaining0: int) returns (over: bool, elapsed: nat, remaining: int)
      requires OnTrace() && pc.Due? && S.IsDue(pc.elapsed, pc.next) && node.connected
      requires pc.elapsed == elapsed0 && pc.remaining == remaining0
      modifies clock, node, profile.Repr(), this`pc, this`issued, this`trace
      ensures OnTrace() && (over ==> pc.Returned? || pc.Killed?)
      ensures !over ==> pc == S.Batch(elapsed, remaining, old(pc.next), [])
      ensures !over ==> clock.now >= old(clock.now) + clock.quantum
    {
      hide OnTrace;
      var puts, gets, leaves := TakeConnected(elapsed0);
      assert puts + gets + leaves == puts + (gets + leaves);
      over, elapsed, remaining := ProcessAll(puts, gets + leaves, elapsed0, remaining0);
      if !over {
        over, elapsed, remaining := DispatchGetsAndLeaves(gets, leaves, elapsed, remaining);
      }
    }

    method DispatchGetsAndLeaves(gets: seq<Event>, leaves: seq<Event>, elapsed0: nat, remaining0: int)
      returns (over: bool, elapsed: nat, remaining: int)
      requires OnTrace() && pc.Batch? && pc.hand == gets + leaves
      requires pc.elapsed == elapsed0 && pc.remaining == remaining0
      modifies clock, node, this`pc, this`issued, this`trace
      ensures OnTrace() && clock.now >= old(clock.now)
      ensures over ==> pc.Returned? || pc.Killed?
      ensures !over ==> pc == S.Batch(elapsed, remaining, old(pc.next), [])
      ensures !over && gets + leaves != [] && old(node.connected) ==> clock.now >= old(clock.now) + clock.quantum
    {
      hide OnTrace;
      over, elapsed, remaining := ProcessAll(gets, leaves, elapsed0, remaining0);
      if !over {
        assert leaves + [] == leaves;
        over, elapsed, remaining := ProcessAll(leaves, [], elapsed, remaining);
      }
    }

    // nothing is due
    ghost method Idle()
      requires OnTrace() && pc.Due? && !S.IsDue(pc.elapsed, pc.next)
      modifies this`pc, this`trace
      ensures OnTrace() && pc == S.Batch(old(pc.elapsed), old(pc.remaining), old(pc.next), [])
    {
      ghost var s := State();
      pc := S.Batch(pc.elapsed, pc.remaining, pc.next, []);
      Record(s, State());
    }

    ghost method GoRound()
      requires OnTrace() && pc.Batch? && pc.hand == [] && S.Bottom(State()).Check?
      modifies this`pc, this`trace
      ensures OnTrace() && pc == S.Check
    {
      ghost var s := State();
      pc := S.Check;
      Record(s, State());
    }

    method Wait(toWait: nat)
      requires OnTrace() && pc.Batch? && pc.hand == [] && S.Bottom(State()) == S.Sleep(toWait, pc.next)
      modifies clock, this`pc, this`trace
      ensures OnTrace() && pc == S.Check && clock.now >= old(clock.now) + 1.0
      ensures clock.now >= old(clock.now) + toWait as real
    {
      ghost var s := State();
      S.ClockHolds(config, trace);
      pc := S.Sleep(toWait, s.pc.next);
      Record(s, State());
      S.ClockHolds(config, trace);
      s := State();
      clock.Pass(toWait as real);
      pc := S.Check;
      Record(s, State());
    }

    /** Once round the loop: a second of waiting, or at least one event. */
    method Round() returns (over: bool)
      requires OnTrace() && pc == S.Check
      modifies clock, node, profile.Repr(), this`pc, this`issued, this`trace
      ensures OnTrace() && if over then pc.Returned? || pc.Killed? else pc == S.Check
      ensures !over ==> old(clock.now) <= duration as real && clock.now >= old(clock.now) + clock.quantum
    {
      hide OnTrace;
      var elapsed, remaining;
      over, elapsed, remaining := CheckDone();
      if over {
        return;
      }
      var nextEvent := Plan(elapsed, remaining);
      if elapsed >= nextEvent && nextEvent != 0 {
        over, elapsed, remaining := Dispatch(elapsed, remaining);
        if over {
          return;
        }
      } else {
        Idle();
      }
      Settle(elapsed, remaining, nextEvent);
    }

    /** The bottom of the loop: wait for the next event, or go round at once. */
    method Settle(elapsed: nat, remaining: int, nextEvent: nat)
      requires OnTrace() && pc == S.Batch(elapsed, remaining, nextEvent, [])
      modifies clock, this`pc, this`trace
      ensures OnTrace() && pc == S.Check && clock.now >= old(clock.now)
      ensures !S.IsDue(elapsed, nextEvent) ==> clock.now >= old(clock.now) + 1.0
    {
      hide OnTrace;
      if nextEvent != 0 {
        if nextEvent > elapsed {
          Wait(nextEvent - elapsed);
        } else {
          GoRound();
        }
      } else {
        Wait(if remaining >= 0 then remaining else remaining % TIME_UNITS);
      }
    }

    /** start(): it ends, in the last second of the run or later, unless it kills the process,
        which takes a hazardous configuration; and every operation has been measured once. */
    method Start()
      requires OnTrace() && pc == S.Check
      modifies this, clock, node, profile.Repr()
      ensures OnTrace()
      ensures if pc.Returned? then clock.now > duration as real - 1.0 else pc.Killed? && Safety.Hazard(config)
      ensures N.Measured(node.Value(), issued) && N.Alternates(N.Moves(issued))
    {
      Run();
      ghost var s := State();
      RunEnds(config, trace, s);
    }

    method Run()
      requires OnTrace() && pc == S.Check
      modifies this, clock, node, profile.Repr()
      ensures OnTrace() && (pc.Returned? || pc.Killed?)
    {
      hide OnTrace, Quanta;
      var over := false;
      while !over
        invariant OnTrace() && if over then pc.Returned? || pc.Killed? else pc == S.Check
        decreases !over, Quanta(duration, clock.quantum, clock.now)
      {
        ghost var began := clock.now;
        over := Round();
        if !over {
          QuantaFall(duration, clock.quantum, began, clock.now);
        }
      }
    }
  }

  lemma RunEnds(c: S.Config, run: seq<S.State>, s: S.State)
    requires S.WellFormed(c) && S.IsRun(c, run) && run[|run| - 1] == s
    requires s.pc.Returned? || s.pc.Killed?
    ensures s.pc.Returned? ==> s.clock > c.duration as real - 1.0
    ensures s.pc.Killed? ==> Safety.Hazard(c)
    ensures N.Measured(s.node, s.issued) && N.Alternates(N.Moves(s.issued))
  {
    assert S.Reachable(c, s);
    if s.pc.Returned? {
      O.ReturnsAtTheEnd(c, s);
    } else {
      Safety.KilledIffHazard(c);
    }
    N.EveryOperationMeasured(c, s);
    N.JoinsAndLeavesAlternate(c, s);
  }

  lemma PlanExtends(c: S.Config, run: seq<S.State>, s: S.State, mid: S.State) returns (run': seq<S.State>)
    requires S.IsRun(c, run) && run[|run| - 1] == s
    requires s.pc.Plan? && S.Replanned(s, mid, s.pc.elapsed)
    requires mid == s.(join := mid.join, leave := mid.leave, put := mid.put, get := mid.get)
    ensures S.IsRun(c, run') && run'[|run'| - 1] ==
            mid.(pc := S.Due(s.pc.elapsed, s.pc.remaining, S.Clamp(c.duration, S.NextEventTime(mid))))
  {
    var t := mid.(pc := S.Due(s.pc.elapsed, s.pc.remaining, S.Clamp(c.duration, S.NextEventTime(mid))));
    assert S.PlanStep(c, s, t);
    S.RunExtend(c, run, t);
    run' := run + [t];
  }

  lemma DueExtends(c: S.Config, run: seq<S.State>, s: S.State, mid: S.State,
                   puts: seq<Event>, gets: seq<Event>, leaves: seq<Event>) returns (run': seq<S.State>)
    requires S.IsRun(c, run) && run[|run| - 1] == s
    requires s.pc.Due? && S.IsDue(s.pc.elapsed, s.pc.next) && s.node.connected
    requires M.Taken(s.put, s.pc.elapsed, puts, mid.put) && M.Taken(s.get, s.pc.elapsed, gets, mid.get)
    requires M.Taken(s.leave, s.pc.elapsed, leaves, mid.leave)
    requires mid == s.(leave := mid.leave, put := mid.put, get := mid.get)
    ensures S.IsRun(c, run') && puts + gets + leaves != []
    ensures run'[|run'| - 1] ==
            mid.(pc := S.Batch(s.pc.elapsed, s.pc.remaining, s.pc.next, puts + gets + leaves))
  {
    var t := mid.(pc := S.Batch(s.pc.elapsed, s.pc.remaining, s.pc.next, puts + gets + leaves));
    assert S.ConnectedBatch(s, t, s.pc.elapsed, puts, gets, leaves);
    S.RunExtend(c, run, t);
    T.PlannedHolds(c, run);
    T.DueMeansWork(c, s, t);
    run' := run + [t];
  }

  lemma JoinsExtend(c: S.Config, run: seq<S.State>, s: S.State, mid: S.State, joins: seq<Event>)
    returns (run': seq<S.State>)
    requires S.WellFormed(c) && S.IsRun(c, run) && run[|run| - 1] == s
    requires s.pc.Due? && S.IsDue(s.pc.elapsed, s.pc.next) && !s.node.connected
    requires M.Taken(s.join, s.pc.elapsed, joins, mid.join) && mid == s.(join := mid.join)
    ensures S.IsRun(c, run') && joins != [] && joins[0].JoinEvent?
    ensures run'[|run'| - 1] == mid.(pc := S.Batch(s.pc.elapsed, s.pc.remaining, s.pc.next, joins))
  {
    var t := mid.(pc := S.Batch(s.pc.elapsed, s.pc.remaining, s.pc.next, joins));
    S.RunExtend(c, run, t);
    T.PlannedHolds(c, run);
    T.DueMeansWork(c, s, t);
    O.AllConservedHolds(c, run);
    O.JoinKinds(s, t, s.pc.elapsed);
    assert joins[0] in joins;
    run' := run + [t];
  }
}
