/** The event-generating profiles as the objects the controller keeps: an event queue that
    scheduleNextEvent refills and getEvents drains. */
module Profiles {
  import opened Clock
  import opened Events
  import M = ProfileModel

  /** n events for one time have been added to the queue and the history, and nothing else. */
  ghost predicate Grown(before: M.Profile, after: M.Profile, time: nat, n: nat) {
    exists added :: M.Generated(before.op, time, n, added)
                    && after.queue == before.queue + multiset(added)
                    && after.pushed == before.pushed + multiset(added)
  }

  lemma GrownIsRefilled(before: M.Profile, after: M.Profile, now: nat, draw: nat)
    requires NextTime(before.queue) == 0 && M.Refills(before.kind) && draw < M.DRAW_LIMIT
    requires Grown(before, after, M.RefillTime(before, now, draw), M.BatchSize(before.kind))
    requires after == before.(queue := after.queue, pushed := after.pushed, last := after.last)
    requires after.last == if M.Chained(before.kind) then M.RefillTime(before, now, draw) else before.last
    ensures M.Scheduled(before, now, after)
  {
    var added :| M.Generated(before.op, M.RefillTime(before, now, draw), M.BatchSize(before.kind), added)
              && after.queue == before.queue + multiset(added) && after.pushed == before.pushed + multiset(added);
    assert M.Refilled(before, now, draw, added, after);
  }

  lemma NotRefilled(p: M.Profile, now: nat)
    requires p.kind.Static? || p.kind.Empty? || NextTime(p.queue) != 0
    ensures M.Scheduled(p, now, p)
  {
  }

  class Profile {
    const op: Op
    const kind: M.Kind
    const eventQueue: EventQueue
    var last: nat
    ghost var pushed: multiset<Event>
    ghost var taken: seq<Event>

    ghost function Repr(): set<object> {
      {this, eventQueue}
    }

    ghost function Value(): M.Profile
      reads this, eventQueue
    {
      M.Profile(op, kind, eventQueue.queue, last, pushed, taken)
    }

    constructor None(op: Op)
      ensures M.Fresh(Value()) && this.op == op && kind == M.Empty && fresh(Repr())
    {
      this.op, kind, last := op, M.Empty, 0;
      eventQueue := new EventQueue();
      pushed, taken := multiset{}, [];
    }

    constructor WeibullRandom(op: Op)
      ensures M.Fresh(Value()) && this.op == op && kind == M.Weibull && fresh(Repr())
    {
      this.op, kind, last := op, M.Weibull, 0;
      eventQueue := new EventQueue();
      pushed, taken := multiset{}, [];
    }

    constructor Exact(op: Op, events: seq<Event>)
      requires forall e :: e in events ==> e.Kind() == op && e.time < TIME_UNITS
      ensures M.Fresh(Value()) && this.op == op && kind == M.Static && fresh(Repr())
      ensures eventQueue.queue == multiset(events)
    {
      this.op, kind, last := op, M.Static, 0;
      eventQueue := new EventQueue();
      pushed, taken := multiset(events), [];
      new;
      var i := 0;
      while i < |events|
        invariant i <= |events| && eventQueue.queue == multiset(events[..i])
        modifies eventQueue
      {
        eventQueue.Push(events[i]);
        assert events[..i + 1] == events[..i] + [events[i]];
        i := i + 1;
      }
      assert events[..i] == events;
    }

    constructor Now(op: Op, time: nat)
      requires (op.Join? || op.Leave?) && time < TIME_UNITS
      ensures M.Fresh(Value()) && this.op == op && kind == M.Now && fresh(Repr())
      ensures forall e :: e in eventQueue.queue ==> e.time == time
    {
      this.op, kind, last := op, M.Now, 0;
      eventQueue := new EventQueue();
      pushed, taken := multiset{}, [];
      new;
      PushElement(time);
    }

    constructor PoissonRandom(op: Op, timeBegin: nat, draw: nat)
      requires timeBegin < TIME_UNITS
      ensures M.Fresh(Value()) && this.op == op && kind == M.Poisson && fresh(Repr())
      ensures last == (timeBegin + draw) % TIME_UNITS
    {
      this.op, kind, last := op, M.Poisson, (timeBegin + draw) % TIME_UNITS;
      eventQueue := new EventQueue();
      pushed, taken := multiset{}, [];
      new;
      PushElement(last);
    }

    constructor Interval(op: Op, repetitions: nat, frequency: nat, startTime: nat)
      requires (op.Put? || op.Get?) && startTime < TIME_UNITS
      ensures M.Fresh(Value()) && this.op == op && fresh(Repr())
      ensures kind == M.Interval(frequency, repetitions) && last == startTime
    {
      this.op, kind, last := op, M.Interval(frequency, repetitions), startTime;
      eventQueue := new EventQueue();
      pushed, taken := multiset{}, [];
      new;
      PushElement(startTime);
    }

    static method MakeEvent(op: Op, time: nat) returns (e: Event)
      ensures e.Kind() == op && e.time == time && M.StoresItsKey(e)
    {
      var key: string := *; // a random word of the dictionary
      match op {
        case Join => e := JoinEvent(time);
        case Leave => e := LeaveEvent(time);
        case Put => e := PutEvent(time, key, key + "_value");
        case Get => e := GetEvent(time, key);
      }
    }

    /** One event, or the repetitions of one tick. */
    method PushElement(time: nat)
      modifies this`pushed, eventQueue
      ensures Grown(old(Value()), Value(), time, if kind.Interval? then kind.repetitions else 1)
    {
      var n := M.BatchSize(kind);
      ghost var added := [];
      var i := 0;
      while i < n
        invariant 0 <= i <= n && M.Generated(op, time, i, added)
        invariant eventQueue.queue == old(eventQueue.queue) + multiset(added)
        modifies eventQueue
      {
        var e := MakeEvent(op, time);
        eventQueue.Push(e);
        assert multiset(added + [e]) == multiset(added) + multiset{e};
        added := added + [e];
        i := i + 1;
      }
      pushed := pushed + multiset(added);
      assert M.Generated(op, time, M.BatchSize(kind), added);
    }

    method Draw() returns (draw: nat)
      ensures draw < M.DRAW_LIMIT
    {
      draw :| draw < M.DRAW_LIMIT;
    }

    /** The refill of an empty queue, which each kind of profile does in its own way. */
    method Refill(currentTime: nat, draw: nat) returns (ghost time: nat)
      requires M.Refills(kind)
      modifies this, eventQueue
      ensures kind.Now? ==> time == currentTime
      ensures kind.Weibull? ==> time == (currentTime + draw) % 0x1_0000_0000
      ensures kind.Poisson? ==> time == (old(last) + draw) % 0x1_0000_0000
      ensures kind.Interval? ==> time == (old(last) + kind.frequency) % 0x1_0000_0000
      ensures time == M.RefillTime(old(Value()), currentTime, draw)
      ensures last == if kind.Poisson? || kind.Interval? then time else old(last)
      ensures taken == old(taken)
      ensures Grown(old(Value()), Value(), time, if kind.Interval? then kind.repetitions else 1)
    {
      var t := match kind
        case Now => currentTime
        case Weibull => (currentTime + draw) % TIME_UNITS
        case Poisson => (last + draw) % TIME_UNITS
        case Interval(frequency, _) => (last + frequency) % TIME_UNITS;
      if kind.Poisson? || kind.Interval? {
        last := t;
      }
      PushElement(t);
      time := t;
    }

    /** Refills a queue that reads as empty, at time, by the draw made for it. */
    method ScheduleNextEvent(currentTime: nat) returns (t: nat, ghost draw: nat, ghost time: nat)
      modifies this, eventQueue
      ensures M.Scheduled(old(Value()), currentTime, Value())
      ensures t == NextTime(eventQueue.queue)
      ensures draw < 0x8000_0000
      ensures old(NextTime(eventQueue.queue)) != 0 || kind.Static? || kind.Empty? ==> Value() == old(Value())
      ensures old(NextTime(eventQueue.queue)) == 0 && !kind.Static? && !kind.Empty? ==>
                && Grown(old(Value()), Value(), time, if kind.Interval? then kind.repetitions else 1)
                && (kind.Now? ==> time == currentTime)
                && (kind.Weibull? ==> time == (currentTime + draw) % 0x1_0000_0000)
                && (kind.Poisson? ==> time == (old(last) + draw) % 0x1_0000_0000)
                && (kind.Interval? ==> time == (old(last) + kind.frequency) % 0x1_0000_0000)
    {
      hide Grown, M.Scheduled;
      draw, time := 0, 0;
      if kind.Static? || kind.Empty? || NextTime(eventQueue.queue) != 0 {
        NotRefilled(Value(), currentTime);
      }
      var next := eventQueue.GetNextEventTime();
      if next == 0 && M.Refills(kind) {
        ghost var before := Value();
        var drawn := Draw();
        draw := drawn;
        time := Refill(currentTime, drawn);
        GrownIsRefilled(before, Value(), currentTime, draw);
      }
      t := eventQueue.GetNextEventTime();
    }

    method GetEvents(currentTime: nat) returns (list: seq<Event>)
      modifies this, eventQueue
      ensures M.Taken(old(Value()), currentTime, list, Value())
    {
      list := eventQueue.PopEvents(currentTime);
      taken := taken + list;
    }
  }
}
