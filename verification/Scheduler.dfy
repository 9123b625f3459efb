/** The controller's event loop as a transition system: one step for each point where the
    clock is read, an event list is refilled or popped, or a DHT operation is carried out. */
module Scheduler {
  import opened Clock
  import opened Events
  import opened ProfileModel

  datatype Config = Config(duration: nat, join: Profile, leave: Profile, put: Profile, get: Profile)

  // counters of the latency and success-rate metrics of one DhtNode;
  // misplaced counts put and get events that arrived while disconnected
  datatype Node = Node(
    connected: bool,
    joinCount: nat, joinHits: nat, joinMisses: nat,
    leaveCount: nat, putCount: nat,
    getCount: nat, getHits: nat, getMisses: nat,
    misplaced: nat)

  /** Where the loop stands. hand holds the events that were popped and not yet processed. */
  datatype Pc =
    | Check
    | Plan(elapsed: nat, remaining: int)
    | Due(elapsed: nat, remaining: int, next: nat)
    | Batch(elapsed: nat, remaining: int, next: nat, hand: seq<Event>)
    | BatchCheck(next: nat, hand: seq<Event>)
    | Sleep(toWait: nat, next: nat)
    | Returned(hand: seq<Event>)
    | Killed(hand: seq<Event>)

  datatype State = State(
    clock: real, pc: Pc,
    join: Profile, leave: Profile, put: Profile, get: Profile,
    node: Node, issued: seq<Event>)
  {
    function Profiles(op: Op): Profile {
      match op
      case Join => join
      case Leave => leave
      case Put => put
      case Get => get
    }

    function Hand(): seq<Event> {
      match pc
      case Batch(_, _, _, hand) => hand
      case BatchCheck(_, hand) => hand
      case Returned(hand) => hand
      case Killed(hand) => hand
      case _ => []
    }
  }

  const NEW_NODE := Node(false, 0, 0, 0, 0, 0, 0, 0, 0, 0)

  /** The configurations the constructors can build, within the no-wrap bounds of the time type. */
  ghost predicate WellFormed(c: Config) {
    && c.duration <= DRAW_LIMIT
    && c.join.op == Join && Fresh(c.join) && Bounded(c.join)
    && c.leave.op == Leave && Fresh(c.leave) && Bounded(c.leave)
    && c.put.op == Put && Fresh(c.put) && Bounded(c.put)
    && c.get.op == Get && Fresh(c.get) && Bounded(c.get)
  }

  function Start(c: Config): State {
    State(0.0, Check, c.join, c.leave, c.put, c.get, NEW_NODE, [])
  }

  // ---------- the steps ----------

  function AfterCheck(c: Config, s: State, clock: real): State {
    s.(clock := clock,
       pc := if Done(c.duration, clock) then Returned([])
             else Plan(Elapsed(c.duration, clock), Remaining(c.duration, clock)))
  }

  function AfterBatchCheck(c: Config, s: State, clock: real): State
    requires s.pc.BatchCheck?
  {
    s.(clock := clock,
       pc := if Done(c.duration, clock) then Returned(s.pc.hand)
             else Batch(Elapsed(c.duration, clock), Remaining(c.duration, clock), s.pc.next, s.pc.hand))
  }

  // the smaller of two readings, where 0 means "no event"
  function Earliest(ret: nat, aux: nat): nat {
    if ret == 0 || (aux < ret && aux != 0) then aux else ret
  }

  function Clamp(duration: nat, next: nat): nat {
    if next > duration then 0 else next
  }

  ghost function NextEventTime(s: State): nat {
    if s.node.connected
    then Earliest(Earliest(NextTime(s.leave.queue), NextTime(s.put.queue)), NextTime(s.get.queue))
    else NextTime(s.join.queue)
  }

  /** ret is the least of three readings that are not 0, and 0 when all of them are. */
  predicate IsLeast(ret: nat, a: nat, b: nat, d: nat) {
    if a == 0 && b == 0 && d == 0 then ret == 0
    else
      && (ret == a || ret == b || ret == d) && ret != 0
      && (a != 0 ==> ret <= a) && (b != 0 ==> ret <= b) && (d != 0 ==> ret <= d)
  }

  lemma EarliestIsLeast(a: nat, b: nat, d: nat)
    ensures IsLeast(Earliest(Earliest(a, b), d), a, b, d)
  {
  }

  /** Planned next is the earliest event of the profiles that matter, unless it lies after the end
      of the run or there is none. */
  lemma PlannedNext(c: Config, s: State, t: State) returns (reading: nat)
    requires s.pc.Plan? && PlanStep(c, s, t)
    ensures s.node.connected ==>
              IsLeast(reading, NextTime(t.leave.queue), NextTime(t.put.queue), NextTime(t.get.queue))
    ensures !s.node.connected ==> reading == NextTime(t.join.queue)
    ensures t.pc.Due? && t.pc.next == if reading <= c.duration then reading else 0
  {
    reading := NextEventTime(t);
    EarliestIsLeast(NextTime(t.leave.queue), NextTime(t.put.queue), NextTime(t.get.queue));
  }

  // the profiles that matter now have been asked for their next event
  ghost predicate Replanned(s: State, t: State, elapsed: nat) {
    if s.node.connected
    then && Scheduled(s.leave, elapsed, t.leave) && Scheduled(s.put, elapsed, t.put)
         && Scheduled(s.get, elapsed, t.get) && t.join == s.join
    else && Scheduled(s.join, elapsed, t.join)
         && t.leave == s.leave && t.put == s.put && t.get == s.get
  }

  ghost predicate PlanStep(c: Config, s: State, t: State)
    requires s.pc.Plan?
  {
    && t == s.(pc := Due(s.pc.elapsed, s.pc.remaining, Clamp(c.duration, NextEventTime(t))),
               join := t.join, leave := t.leave, put := t.put, get := t.get)
    && Replanned(s, t, s.pc.elapsed)
  }

  ghost predicate IsDue(elapsed: nat, next: nat) {
    elapsed >= next && next != 0
  }

  ghost predicate ConnectedBatch(s: State, t: State, elapsed: nat,
                                 puts: seq<Event>, gets: seq<Event>, leaves: seq<Event>) {
    && Taken(s.put, elapsed, puts, t.put)
    && Taken(s.get, elapsed, gets, t.get)
    && Taken(s.leave, elapsed, leaves, t.leave)
    && t.join == s.join
    && t.Hand() == puts + gets + leaves
  }

  ghost predicate DueStep(s: State, t: State)
    requires s.pc.Due?
  {
    var (elapsed, next) := (s.pc.elapsed, s.pc.next);
    && t == s.(pc := Batch(elapsed, s.pc.remaining, next, t.Hand()),
               join := t.join, leave := t.leave, put := t.put, get := t.get)
    && if !IsDue(elapsed, next) then
         t == s.(pc := Batch(elapsed, s.pc.remaining, next, []))
       else if s.node.connected then
         exists puts, gets, leaves :: ConnectedBatch(s, t, elapsed, puts, gets, leaves)
       else
         && Taken(s.join, elapsed, t.Hand(), t.join)
         && t.leave == s.leave && t.put == s.put && t.get == s.get
  }

  /** The bottom of the loop: wait for the next event, go round again, or sleep to the end. */
  function Bottom(s: State): Pc
    requires s.pc.Batch?
  {
    if s.pc.next != 0 then
      if s.pc.next > s.pc.elapsed then Sleep(s.pc.next - s.pc.elapsed, s.pc.next) else Check
    else if s.pc.remaining >= 0 then Sleep(s.pc.remaining, 0)
    else Sleep(s.pc.remaining % TIME_UNITS, 0)
  }

  function JoinFailed(n: Node): Node {
    n.(joinCount := n.joinCount + 1, joinMisses := n.joinMisses + 1)
  }

  function Joined(n: Node): Node {
    n.(joinCount := n.joinCount + 1, joinHits := n.joinHits + 1, connected := true)
  }

  function Left(n: Node): Node {
    n.(leaveCount := n.leaveCount + 1, connected := false)
  }

  function Stored(n: Node): Node {
    if n.connected then n.(putCount := n.putCount + 1) else n.(misplaced := n.misplaced + 1)
  }

  function Fetched(n: Node, success: bool): Node {
    if !n.connected then n.(misplaced := n.misplaced + 1)
    else if success then n.(getHits := n.getHits + 1, getCount := n.getCount + 1)
    else n.(getMisses := n.getMisses + 1, getCount := n.getCount + 1)
  }

  function WrongState(connected: bool, e: Event): bool {
    (e.JoinEvent? && connected) || (e.LeaveEvent? && !connected)
  }

  /** e, the first event in hand, has been carried out and leaves the node as n. */
  function Processed(s: State, clock: real, n: Node): State
    requires s.pc.Batch? && s.pc.hand != []
  {
    s.(clock := clock, node := n, issued := s.issued + [s.pc.hand[0]],
       pc := BatchCheck(s.pc.next, s.pc.hand[1..]))
  }

  ghost predicate FailedJoin(s: State, t: State)
    requires s.pc.Batch? && s.pc.hand != []
  {
    && s.pc.hand[0].JoinEvent? && !s.node.connected
    && t.clock >= s.clock + 1.0 // sleeps one second before trying again
    && t == s.(clock := t.clock, node := JoinFailed(s.node))
  }

  ghost predicate ProcessStep(s: State, t: State)
    requires s.pc.Batch? && s.pc.hand != []
  {
    var e := s.pc.hand[0];
    if WrongState(s.node.connected, e) then
      t == s.(pc := Killed(s.pc.hand))
    else
      && t.clock >= s.clock
      && match e
         case JoinEvent(_) => FailedJoin(s, t) || t == Processed(s, t.clock, Joined(s.node))
         case LeaveEvent(_) => t == Processed(s, t.clock, Left(s.node))
         case PutEvent(_, _, _) => t == Processed(s, t.clock, Stored(s.node))
         case GetEvent(_, _) =>
           || t == Processed(s, t.clock, Fetched(s.node, true))
           || t == Processed(s, t.clock, Fetched(s.node, false))
  }

  ghost predicate Step(c: Config, s: State, t: State) {
    match s.pc
    case Check => t.clock >= s.clock && t == AfterCheck(c, s, t.clock)
    case Plan(_, _) => PlanStep(c, s, t)
    case Due(_, _, _) => DueStep(s, t)
    case Batch(_, _, _, hand) => if hand == [] then t == s.(pc := Bottom(s)) else ProcessStep(s, t)
    case BatchCheck(_, _) => t.clock >= s.clock && t == AfterBatchCheck(c, s, t.clock)
    case Sleep(toWait, _) => t.clock >= s.clock + toWait as real && t == s.(clock := t.clock, pc := Check)
    case Returned(_) => false
    case Killed(_) => false
  }

  ghost predicate IsRun(c: Config, run: seq<State>) {
    && |run| >= 1 && run[0] == Start(c)
    && forall i :: 0 <= i < |run| - 1 ==> Step(c, run[i], run[i + 1])
  }

  ghost predicate Reachable(c: Config, s: State) {
    exists run :: IsRun(c, run) && run[|run| - 1] == s
  }

  lemma RunExtend(c: Config, run: seq<State>, t: State)
    requires IsRun(c, run) && Step(c, run[|run| - 1], t)
    ensures IsRun(c, run + [t])
  {
  }

  lemma RunPrefix(c: Config, run: seq<State>)
    requires IsRun(c, run) && |run| > 1
    ensures IsRun(c, run[..|run| - 1])
    ensures Step(c, run[|run| - 2], run[|run| - 1])
  {
    assert run[|run| - 1] == run[(|run| - 2) + 1];
  }

  // ---------- what the clock readings say at each point of the loop ----------

  ghost predicate ClockInv(c: Config, s: State) {
    && s.clock >= 0.0
    && (s.node.connected ==> s.clock > 0.0)
    && match s.pc
       case Check => true
       case Plan(elapsed, remaining) => Read(c, s, elapsed, remaining)
       case Due(elapsed, remaining, next) => Read(c, s, elapsed, remaining) && next <= c.duration
       case Batch(elapsed, remaining, next, hand) =>
         && next <= c.duration
         && if hand == [] then Read(c, s, elapsed, remaining)
            else && 1 <= next <= elapsed < c.duration && elapsed <= Ceil(s.clock)
                 && forall e :: e in hand ==> e.time <= elapsed
       case BatchCheck(next, hand) =>
         && 1 <= next <= c.duration && next <= Ceil(s.clock)
         && (forall e :: e in hand ==> e.time <= Ceil(s.clock))
       case Sleep(toWait, next) =>
         && toWait >= 1
         && next <= c.duration
         && s.clock <= c.duration as real - 1.0
         && toWait == (if next == 0 then c.duration else next) - Ceil(s.clock)
       case Returned(hand) => s.clock > c.duration as real - 1.0
       case Killed(_) => true
  }

  // the macro's variables describe the present clock
  ghost predicate Read(c: Config, s: State, elapsed: nat, remaining: int) {
    && s.clock <= c.duration as real - 1.0
    && elapsed == Ceil(s.clock)
    && remaining == c.duration - elapsed >= 1
  }

  lemma HandTimes(s: State, t: State)
    requires s.pc.Due? && DueStep(s, t)
    ensures forall e :: e in t.Hand() ==> e.time <= s.pc.elapsed
    ensures !IsDue(s.pc.elapsed, s.pc.next) ==> t.Hand() == []
  {
  }

  lemma ClockProcessed(c: Config, s: State, t: State)
    requires ClockInv(c, s) && s.pc.Batch? && s.pc.hand != [] && ProcessStep(s, t)
    ensures ClockInv(c, t) && t.clock >= s.clock
  {
    CeilMonotone(s.clock, if t.clock >= s.clock then t.clock else s.clock);
    assert s.clock > 0.0;
    assert forall e :: e in s.pc.hand[1..] ==> e in s.pc.hand;
  }

  lemma ClockBottom(c: Config, s: State)
    requires ClockInv(c, s) && s.pc.Batch? && s.pc.hand == []
    ensures ClockInv(c, s.(pc := Bottom(s)))
  {
  }

  lemma ClockChecked(c: Config, s: State, t: State)
    requires c.duration < TIME_UNITS && ClockInv(c, s) && Step(c, s, t)
    requires s.pc.Check? || s.pc.BatchCheck?
    ensures ClockInv(c, t)
  {
    CheckMeaning(c.duration, t.clock);
    CeilMonotone(s.clock, t.clock);
  }

  lemma ClockPreserved(c: Config, s: State, t: State)
    requires c.duration < TIME_UNITS && ClockInv(c, s) && Step(c, s, t)
    ensures ClockInv(c, t) && t.clock >= s.clock && Ceil(t.clock) >= Ceil(s.clock)
  {
    match s.pc {
      case Check => ClockChecked(c, s, t);
      case BatchCheck(_, _) => ClockChecked(c, s, t);
      case Due(_, _, _) => HandTimes(s, t);
      case Batch(_, _, _, hand) =>
        if hand == [] {
          ClockBottom(c, s);
        } else {
          ClockProcessed(c, s, t);
        }
      case _ =>
    }
    CeilMonotone(s.clock, t.clock);
  }

  lemma {:induction false} ClockHolds(c: Config, run: seq<State>)
    requires WellFormed(c) && IsRun(c, run)
    ensures ClockInv(c, run[|run| - 1])
    decreases |run|
  {
    if |run| > 1 {
      RunPrefix(c, run);
      ClockHolds(c, run[..|run| - 1]);
      ClockPreserved(c, run[|run| - 2], run[|run| - 1]);
    }
  }
}
