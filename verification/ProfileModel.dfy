/** The event-generating profiles as values: what one call of scheduleNextEvent and one
    call of getEvents may do to a profile, and what every such call keeps. */
module ProfileModel {
  import opened Clock
  import opened Events

  // Static stands for exact, ntimesrandom and fulldictionary: a list fixed at construction.
  // Empty is the profile called none.
  datatype Kind =
    | Static
    | Empty
    | Now
    | Interval(frequency: nat, repetitions: nat)
    | Poisson
    | Weibull

  // random draws are ints
  const DRAW_LIMIT: nat := 0x8000_0000

  // pushed and taken are histories: everything ever pushed, everything ever popped.
  datatype Profile = Profile(
    op: Op, kind: Kind, queue: multiset<Event>, last: nat,
    pushed: multiset<Event>, taken: seq<Event>)

  ghost predicate AllAt(q: multiset<Event>, t: nat) {
    forall e :: e in q ==> e.time == t
  }

  /** The state a constructor leaves behind. */
  ghost predicate Fresh(p: Profile) {
    && p.pushed == p.queue && p.taken == [] && p.last < TIME_UNITS
    && (forall e :: e in p.queue ==> e.Kind() == p.op && e.time < TIME_UNITS)
    && match p.kind
       case Static => true
       case Empty => p.queue == multiset{}
       case Weibull => p.queue == multiset{}
       case Now => (p.op.Join? || p.op.Leave?) && |p.queue| == 1
       case Poisson => |p.queue| == 1 && AllAt(p.queue, p.last)
       case Interval(_, n) => (p.op.Put? || p.op.Get?) && |p.queue| == n && AllAt(p.queue, p.last)
  }

  predicate Refills(kind: Kind) {
    !kind.Static? && !kind.Empty?
  }

  function BatchSize(kind: Kind): nat {
    match kind
    case Interval(_, n) => n
    case _ => 1
  }

  // Interval and Poisson refill relative to their own last event
  predicate Chained(kind: Kind) {
    kind.Interval? || kind.Poisson?
  }

  function RefillTime(p: Profile, now: nat, draw: nat): nat {
    match p.kind
    case Now => now
    case Weibull => (now + draw) % TIME_UNITS
    case Poisson => (p.last + draw) % TIME_UNITS
    case Interval(f, _) => (p.last + f) % TIME_UNITS
    case _ => 0
  }

  // what a generated put stores is told by its key
  predicate StoresItsKey(e: Event) {
    e.PutEvent? ==> e.value == e.key + "_value"
  }

  /** n new events of one operation, all for time t. */
  ghost predicate Generated(op: Op, t: nat, n: nat, added: seq<Event>) {
    |added| == n && forall e :: e in added ==> e.Kind() == op && e.time == t && StoresItsKey(e)
  }

  ghost predicate Refilled(p: Profile, now: nat, draw: nat, added: seq<Event>, p': Profile) {
    && draw < DRAW_LIMIT
    && Generated(p.op, RefillTime(p, now, draw), BatchSize(p.kind), added)
    && p' == p.(queue := p.queue + multiset(added), pushed := p.pushed + multiset(added),
                last := if Chained(p.kind) then RefillTime(p, now, draw) else p.last)
  }

  /** scheduleNextEvent: refill when the queue reads as empty. */
  ghost predicate Scheduled(p: Profile, now: nat, p': Profile) {
    if NextTime(p.queue) == 0 && Refills(p.kind)
    then exists draw, added :: Refilled(p, now, draw, added, p')
    else p' == p
  }

  /** getEvents */
  ghost predicate Taken(p: Profile, now: nat, list: seq<Event>, p': Profile) {
    && Popped(p.queue, now, list, p'.queue)
    && p' == p.(queue := p'.queue, taken := p.taken + list)
  }

  // ---------- order and conservation ----------

  ghost predicate HasZero(q: multiset<Event>) {
    exists e :: e in q && e.time == 0
  }

  // no-wrap bound on the numbers of one profile
  ghost predicate Bounded(p: Profile) {
    p.kind.Interval? ==> p.kind.frequency <= DRAW_LIMIT
  }

  ghost predicate Far(q: multiset<Event>) {
    exists e :: e in q && e.time >= DRAW_LIMIT
  }

  ghost predicate NoneAfter(q: multiset<Event>, t: nat) {
    forall e :: e in q ==> e.time <= t
  }

  /** Times grow along a chain until one of them is too far away ever to be reached; only then
      may they wrap. While an event at time 0 is queued, nothing later has been popped. */
  ghost predicate Chain(p: Profile) {
    if BatchSize(p.kind) == 0 then p.pushed == multiset{}
    else
      && p.last < TIME_UNITS
      && (exists e :: e in p.pushed && e.time == p.last)
      && (Far(p.pushed) || NoneAfter(p.pushed, p.last))
      && (HasZero(p.queue) ==> forall e :: e in p.taken ==> e.time == 0)
  }

  ghost predicate Ordered(p: Profile, now: nat) {
    && p.pushed == multiset(p.taken) + p.queue
    && Sorted(p.taken)
    && (forall e :: e in p.taken ==> e.time <= now)
    && (forall e, x :: e in p.taken && x in p.queue ==> e.time <= x.time)
    && (Chained(p.kind) ==> Chain(p))
  }

  lemma OrderedFresh(p: Profile)
    requires Fresh(p)
    ensures Ordered(p, 0)
  {
    if Chained(p.kind) && BatchSize(p.kind) > 0 {
      var e :| e in p.queue;
    }
  }

  lemma OrderedLater(p: Profile, now: nat, later: nat)
    requires Ordered(p, now) && now <= later
    ensures Ordered(p, later)
  {
  }

  lemma EmptyIfUnread(q: multiset<Event>)
    requires NextTime(q) == 0 && !HasZero(q)
    ensures q == multiset{}
  {
  }

  lemma NoWrap(p: Profile, now: nat, draw: nat)
    requires Chained(p.kind) && Bounded(p) && draw < DRAW_LIMIT && p.last < DRAW_LIMIT
    ensures RefillTime(p, now, draw) == p.last + if p.kind.Interval? then p.kind.frequency else draw
  {
  }

  /** A Weibull profile with nothing queued may refill at any time up to 2^31 later. */
  lemma AnyDraw(p: Profile, now: nat, later: nat) returns (p': Profile)
    requires p.kind.Weibull? && p.queue == multiset{}
    requires now <= later < now + 0x8000_0000 && later < 0x1_0000_0000
    ensures Scheduled(p, now, p') && |p'.queue| == 1 && NextTime(p'.queue) == later
  {
    var e := match p.op
             case Join => JoinEvent(later)
             case Leave => LeaveEvent(later)
             case Put => PutEvent(later, "", "_value")
             case Get => GetEvent(later, "");
    assert later - now < DRAW_LIMIT && RefillTime(p, now, later - now) == later;
    p' := p.(queue := p.queue + multiset([e]), pushed := p.pushed + multiset([e]));
    assert Refilled(p, now, later - now, [e], p');
    assert p'.queue == multiset{e};
  }

  /** Within the bounds that keep the time type from wrapping: a Now profile refills at the current
      time, a Weibull profile a draw later, the others a step after their own last event. */
  lemma RefillTimes(p: Profile, now: nat, draw: nat)
    requires now < DRAW_LIMIT && draw < DRAW_LIMIT && p.last < DRAW_LIMIT && Bounded(p)
    ensures p.kind.Now? ==> RefillTime(p, now, draw) == now
    ensures p.kind.Weibull? ==> RefillTime(p, now, draw) == now + draw
    ensures p.kind.Poisson? ==> RefillTime(p, now, draw) == p.last + draw
    ensures p.kind.Interval? ==> RefillTime(p, now, draw) == p.last + p.kind.frequency
  {
  }

  // the new time is past everything pushed, unless something pushed is out of reach
  lemma ChainGrows(p: Profile, now: nat, draw: nat)
    requires Ordered(p, now) && Bounded(p) && draw < DRAW_LIMIT
    requires Chained(p.kind) && BatchSize(p.kind) > 0
    ensures Far(p.pushed) || NoneAfter(p.pushed, RefillTime(p, now, draw))
  {
    if !Far(p.pushed) {
      assert Chain(p);
      var e :| e in p.pushed && e.time == p.last;
      hide Ordered, Chain, HasZero;
      NoWrap(p, now, draw);
    }
  }

  lemma ChainBehind(p: Profile, now: nat, draw: nat)
    requires Ordered(p, now) && Bounded(p) && now < DRAW_LIMIT && draw < DRAW_LIMIT
    requires Chained(p.kind) && BatchSize(p.kind) > 0 && NextTime(p.queue) == 0
    ensures forall e :: e in p.taken ==> e.time <= RefillTime(p, now, draw)
    ensures !HasZero(p.queue) && RefillTime(p, now, draw) == 0 ==> forall e :: e in p.taken ==> e.time == 0
  {
    if !HasZero(p.queue) {
      EmptyIfUnread(p.queue);
      assert p.pushed == multiset(p.taken);
      assert !Far(p.pushed);
      ChainGrows(p, now, draw);
      assert forall e :: e in p.taken ==> e in p.pushed;
    }
  }

  lemma ChainRefilled(p: Profile, now: nat, draw: nat, added: seq<Event>, p': Profile)
    requires Ordered(p, now) && Refilled(p, now, draw, added, p') && Bounded(p) && now < DRAW_LIMIT
    requires Chained(p.kind) && NextTime(p.queue) == 0
    ensures Chain(p')
    ensures forall e :: e in p.taken ==> e.time <= RefillTime(p, now, draw)
  {
    if BatchSize(p.kind) == 0 {
      assert multiset(added) == multiset{};
    } else {
      ChainGrows(p, now, draw);
      ChainBehind(p, now, draw);
      ChainExtends(p, now, draw, added, p');
    }
  }

  lemma ChainExtends(p: Profile, now: nat, draw: nat, added: seq<Event>, p': Profile)
    requires Chained(p.kind) && BatchSize(p.kind) > 0 && Chain(p) && Refilled(p, now, draw, added, p')
    requires Far(p.pushed) || NoneAfter(p.pushed, RefillTime(p, now, draw))
    requires !HasZero(p.queue) && RefillTime(p, now, draw) == 0 ==> forall e :: e in p.taken ==> e.time == 0
    ensures Chain(p')
  {
    var t := RefillTime(p, now, draw);
    assert added[0] in p'.pushed && added[0].time == t;
    if Far(p.pushed) {
      var e :| e in p.pushed && e.time >= DRAW_LIMIT;
      assert e in p'.pushed;
    } else {
      assert forall e :: e in p'.pushed ==> e in p.pushed || e in added;
    }
    assert forall e :: e in p'.queue ==> e in p.queue || e in added;
  }

  lemma OrderedRefilled(p: Profile, now: nat, draw: nat, added: seq<Event>, p': Profile)
    requires Ordered(p, now) && Refilled(p, now, draw, added, p')
    requires forall e :: e in p.taken ==> e.time <= RefillTime(p, now, draw)
    requires Chained(p.kind) ==> Chain(p')
    ensures Ordered(p', now)
  {
    forall x | x in p'.queue ensures x in p.queue || x.time == RefillTime(p, now, draw) {
      assert x in p.queue || x in added;
    }
  }

  lemma OrderedScheduled(p: Profile, now: nat, p': Profile)
    requires Ordered(p, now) && Scheduled(p, now, p') && Bounded(p) && now < DRAW_LIMIT
    ensures Ordered(p', now)
  {
    if NextTime(p.queue) == 0 && Refills(p.kind) {
      var draw, added :| Refilled(p, now, draw, added, p');
      if Chained(p.kind) {
        ChainRefilled(p, now, draw, added, p');
      }
      OrderedRefilled(p, now, draw, added, p');
    }
  }

  lemma SortedAppend(a: seq<Event>, b: seq<Event>)
    requires Sorted(a) && Sorted(b)
    requires forall e, x :: e in a && x in b ==> e.time <= x.time
    ensures Sorted(a + b)
  {
  }

  lemma ListFromQueue(p: Profile, now: nat, list: seq<Event>, p': Profile)
    requires Taken(p, now, list, p')
    ensures forall e :: e in list ==> e in p.queue
    ensures forall e :: e in p'.queue ==> e in p.queue && e.time > now
  {
    forall e | e in list ensures e in p.queue {
      assert e in multiset(list);
    }
  }

  lemma ChainTaken(p: Profile, now: nat, list: seq<Event>, p': Profile)
    requires Chain(p) && Taken(p, now, list, p')
    ensures Chain(p')
  {
    ListFromQueue(p, now, list, p');
    assert !HasZero(p'.queue);
  }

  lemma OrderedTaken(p: Profile, now: nat, list: seq<Event>, p': Profile)
    requires Ordered(p, now) && Taken(p, now, list, p')
    ensures Ordered(p', now)
  {
    ListFromQueue(p, now, list, p');
    SortedAppend(p.taken, list);
    assert multiset(p.taken + list) == multiset(p.taken) + multiset(list);
    forall e | e in p'.taken ensures e.time <= now && forall x :: x in p'.queue ==> e.time <= x.time {
      assert e in p.taken || e in list;
    }
    if Chained(p.kind) {
      ChainTaken(p, now, list, p');
    }
  }

  // ---------- the ticks of an Interval profile ----------

  // the i-th event belongs to tick i / n
  ghost predicate OnTicks(s: seq<Event>, start: nat, f: nat, n: nat)
    requires n >= 1
  {
    forall i :: 0 <= i < |s| ==> s[i].time == start + i / n * f
  }

  lemma OnTicksAppend(s: seq<Event>, list: seq<Event>, start: nat, f: nat, n: nat, k: nat)
    requires n >= 1 && OnTicks(s, start, f, n) && |s| == n * k && |list| == n
    requires forall e :: e in list ==> e.time == start + k * f
    ensures OnTicks(s + list, start, f, n) && |s + list| == n * (k + 1)
  {
    assert n * (k + 1) == n * k + n;
    forall i | 0 <= i < |s + list| ensures (s + list)[i].time == start + i / n * f {
      if i >= |s| {
        QuotientIs(i, n, k);
        assert (s + list)[i] == list[i - |s|];
      }
    }
  }

  /** k ticks after the first one have been generated; those before the last are complete. */
  ghost predicate Ticks(p: Profile, start: nat, now: nat, k: nat) {
    && p.kind.Interval? && p.kind.frequency >= 1 && p.kind.repetitions >= 1 && start >= 1
    && var f, n := p.kind.frequency, p.kind.repetitions;
       && p.last == start + k * f
       && AllAt(p.queue, p.last)
       && (|p.queue| == n || (p.queue == multiset{} && p.last <= now))
       && (k >= 1 ==> p.last - f <= now)
       && |p.taken| == n * (if p.queue == multiset{} then k + 1 else k)
       && OnTicks(p.taken, start, f, n)
  }

  lemma TicksFresh(p: Profile)
    requires Fresh(p) && p.kind.Interval? && p.kind.frequency >= 1 && p.kind.repetitions >= 1
    requires !HasZero(p.queue)
    ensures Ticks(p, p.last, 0, 0)
  {
    var e :| e in p.queue;
  }

  lemma TicksLater(p: Profile, start: nat, now: nat, later: nat, k: nat)
    requires Ticks(p, start, now, k) && now <= later
    ensures Ticks(p, start, later, k)
  {
  }

  lemma TicksRefilled(p: Profile, start: nat, now: nat, k: nat, draw: nat, added: seq<Event>, p': Profile)
    requires Ticks(p, start, now, k) && Refilled(p, now, draw, added, p') && Bounded(p) && now < DRAW_LIMIT
    requires p.queue == multiset{}
    ensures Ticks(p', start, now, k + 1) && p'.queue != multiset{}
  {
    var f := p.kind.frequency;
    assert (k + 1) * f == k * f + f;
    assert p'.queue == multiset(added);
    forall e | e in p'.queue ensures e.time == p'.last {
      assert e in added;
    }
  }

  lemma TicksScheduled(p: Profile, start: nat, now: nat, k: nat, p': Profile) returns (k': nat)
    requires Ticks(p, start, now, k) && Scheduled(p, now, p') && Bounded(p) && now < DRAW_LIMIT
    ensures Ticks(p', start, now, k') && p'.queue != multiset{}
  {
    k' := k;
    if NextTime(p.queue) == 0 {
      TicksPositive(p, start, now, k);
      EmptyIfUnread(p.queue);
      var draw, added :| Refilled(p, now, draw, added, p');
      TicksRefilled(p, start, now, k, draw, added, p');
      k' := k + 1;
    }
  }

  lemma TicksPositive(p: Profile, start: nat, now: nat, k: nat)
    requires Ticks(p, start, now, k)
    ensures p.last >= 1 && !HasZero(p.queue)
  {
  }

  lemma MulMonotone(n: nat, a: int, b: int)
    requires a <= b
    ensures n * a <= n * b
  {
  }

  lemma QuotientIs(i: int, n: int, k: int)
    requires n >= 1 && n * k <= i < n * k + n
    ensures i / n == k
  {
    var q := i / n;
    assert n * q <= i < n * q + n;
    if q < k {
      MulMonotone(n, q + 1, k);
    } else if k < q {
      MulMonotone(n, k + 1, q);
    }
  }

  // a tick is popped whole or not at all
  lemma WholeTick(q: multiset<Event>, t: nat, now: nat, list: seq<Event>, rest: multiset<Event>)
    requires AllAt(q, t) && Popped(q, now, list, rest)
    ensures (list == [] && rest == q) || (rest == multiset{} && t <= now && |list| == |q|)
    ensures forall e :: e in list ==> e.time == t
  {
    forall e | e in list ensures e in q {
      assert e in multiset(list);
    }
    if list == [] {
      assert multiset(list) + rest == rest;
    } else {
      assert list[0].time == t;
      assert forall e :: e in rest ==> e in q;
      assert rest == multiset{};
    }
  }

  lemma TicksTaken(p: Profile, start: nat, now: nat, k: nat, list: seq<Event>, p': Profile)
    requires Ticks(p, start, now, k) && Taken(p, now, list, p')
    ensures Ticks(p', start, now, k)
  {
    WholeTick(p.queue, p.last, now, list, p'.queue);
    if list == [] {
      assert p.taken + list == p.taken;
    } else {
      OnTicksAppend(p.taken, list, start, p.kind.frequency, p.kind.repetitions, k);
    }
  }

  /** Before the first pending tick: how many events a caught-up Interval has issued. */
  lemma TicksCaughtUp(p: Profile, start: nat, now: nat, k: nat)
    requires Ticks(p, start, now, k) && p.queue != multiset{} && NextTime(p.queue) > now >= start
    ensures |p.taken| == p.kind.repetitions * ((now - start) / p.kind.frequency + 1)
  {
    var f := p.kind.frequency;
    var e :| IsTop(p.queue, e) && e.time == NextTime(p.queue);
    assert k >= 1;
    assert (k - 1) * f == k * f - f;
    assert f * (k - 1) == (k - 1) * f;
    QuotientIs(now - start, f, k - 1);
  }
}
