/** Events and the priority queue that holds them. The queue is a multiset: which of
    several events with the same time comes out first is left open. */
module Events {

  datatype Op = Join | Leave | Put | Get

  datatype Event =
    | JoinEvent(time: nat)
    | LeaveEvent(time: nat)
    | PutEvent(time: nat, key: string, value: string)
    | GetEvent(time: nat, key: string)
  {
    function Kind(): Op {
      match this
      case JoinEvent(_) => Join
      case LeaveEvent(_) => Leave
      case PutEvent(_, _, _) => Put
      case GetEvent(_, _) => Get
    }
  }

  predicate IsTop(q: multiset<Event>, e: Event) {
    e in q && forall x :: x in q ==> e.time <= x.time
  }

  lemma TopExists(q: multiset<Event>)
    requires q != multiset{}
    ensures exists e :: IsTop(q, e)
  {
    var x :| x in q;
    var rest := q - multiset{x};
    assert q == rest + multiset{x};
    if rest == multiset{} {
      assert IsTop(q, x);
    } else {
      TopExists(rest);
      var e :| IsTop(rest, e);
      assert IsTop(q, if e.time <= x.time then e else x);
    }
  }

  /** What getNextEventTime reads: the time of the earliest event, and 0 for an empty
      queue. An event at time 0 reads like no event at all. */
  ghost function NextTime(q: multiset<Event>): (t: nat)
    ensures q == multiset{} ==> t == 0
    ensures q != multiset{} ==> exists e :: IsTop(q, e) && e.time == t
    ensures forall e :: e in q ==> t <= e.time
  {
    if q == multiset{} then 0
    else
      TopExists(q);
      var e :| IsTop(q, e);
      e.time
  }

  ghost predicate Sorted(s: seq<Event>) {
    forall i, j :: 0 <= i < j < |s| ==> s[i].time <= s[j].time
  }

  /** list is a possible result of popEvents(now) on q, leaving rest. */
  ghost predicate Popped(q: multiset<Event>, now: nat, list: seq<Event>, rest: multiset<Event>) {
    && q == multiset(list) + rest
    && Sorted(list)
    && (forall e :: e in list ==> e.time <= now)
    && (forall e :: e in rest ==> e.time > now)
  }

  lemma PopExists(q: multiset<Event>, now: nat) returns (list: seq<Event>, rest: multiset<Event>)
    ensures Popped(q, now, list, rest)
  {
    if q == multiset{} || NextTime(q) > now {
      list, rest := [], q;
      assert q == multiset(list) + rest;
    } else {
      var e :| IsTop(q, e) && e.time == NextTime(q);
      var q' := q - multiset{e};
      assert q == q' + multiset{e};
      var tail;
      tail, rest := PopExists(q', now);
      list := [e] + tail;
      PopFirst(q, now, e, q', tail, rest);
    }
  }

  lemma PopFirst(q: multiset<Event>, now: nat, e: Event, q': multiset<Event>, tail: seq<Event>, rest: multiset<Event>)
    requires IsTop(q, e) && e.time <= now && q == q' + multiset{e}
    requires Popped(q', now, tail, rest)
    ensures Popped(q, now, [e] + tail, rest)
  {
    assert multiset([e] + tail) == multiset{e} + multiset(tail);
    forall x | x in tail ensures e.time <= x.time {
      assert x in multiset(tail);
      assert x in q;
    }
  }

  // popEvents on q, part way: ret has been popped, queue is what is left
  ghost predicate Popping(q: multiset<Event>, now: nat, ret: seq<Event>, queue: multiset<Event>) {
    && q == multiset(ret) + queue
    && Sorted(ret)
    && (forall e :: e in ret ==> e.time <= now)
    && (forall e, x :: e in ret && x in queue ==> e.time <= x.time)
  }

  lemma PoppingNext(q: multiset<Event>, now: nat, ret: seq<Event>, queue: multiset<Event>,
                    e: Event, queue': multiset<Event>)
    requires Popping(q, now, ret, queue) && IsTop(queue, e) && e.time <= now
    requires queue == queue' + multiset{e}
    ensures Popping(q, now, ret + [e], queue')
  {
    assert multiset(ret + [e]) == multiset(ret) + multiset{e};
    assert forall x :: x in queue' ==> x in queue;
    assert forall i :: 0 <= i < |ret| ==> ret[i] in ret;
  }

  class EventQueue {
    var queue: multiset<Event>

    constructor ()
      ensures queue == multiset{}
    {
      queue := multiset{};
    }

    method Push(element: Event)
      modifies this
      ensures queue == old(queue) + multiset{element}
    {
      queue := queue + multiset{element};
    }

    method Top() returns (e: Event)
      requires queue != multiset{}
      ensures IsTop(queue, e)
    {
      TopExists(queue);
      e :| IsTop(queue, e);
    }

    method Pop() returns (ret: Event)
      requires queue != multiset{}
      modifies this
      ensures IsTop(old(queue), ret) && old(queue) == queue + multiset{ret}
    {
      ret := Top();
      queue := queue - multiset{ret};
    }

    method GetNextEventTime() returns (t: nat)
      ensures t == NextTime(queue)
    {
      if queue == multiset{} {
        t := 0;
      } else {
        var top := Top();
        t := top.time;
      }
    }

    method PopEvents(currentTime: nat) returns (ret: seq<Event>)
      modifies this
      ensures Popped(old(queue), currentTime, ret, queue)
    {
      ret := [];
      assert multiset(ret) + queue == queue;
      var due := IsDue(currentTime);
      while due
        invariant Popping(old(queue), currentTime, ret, queue)
        invariant due <==> exists x :: x in queue && x.time <= currentTime
        decreases |queue|
      {
        ghost var before := queue;
        var e := Pop();
        PoppingNext(old(queue), currentTime, ret, before, e, queue);
        ret := ret + [e];
        due := IsDue(currentTime);
      }
    }

    // !queue.empty() && queue.top().time <= currentTime
    method IsDue(currentTime: nat) returns (due: bool)
      ensures due <==> exists x :: x in queue && x.time <= currentTime
    {
      if queue == multiset{} {
        due := false;
      } else {
        var top := Top();
        due := top.time <= currentTime;
      }
    }
  }
}
