/** The master: it accepts the controllers, starts them all at once, and counts each of them
    exactly once, as completed or as failed. */
module Master {
  import opened Codec
  import opened Connection
  import opened StartMessages

  // readable tells the texts from which node latencies can be read
  datatype Workload = Workload(
    nodes: nat, duration: nat, dhtType: bytes, profiles: seq<Message>, hosts: seq<bytes>, readable: bytes -> bool)

  datatype Outcome = Pending | Completed | Failed

  datatype Pushed = Pushed(kind: bytes, value: bytes)

  // One controller as the master sees it; results are what pushResult was given for it.
  datatype Peer = Peer(conn: Conn, results: seq<Pushed>, outcome: Outcome)

  datatype State = State(
    peers: seq<Peer>, startSent: bool, finished: nat, failed: nat, stopped: bool, crashed: bool)

  const NEW_MASTER := State([], false, 0, 0, false, false)

  /** A loaded workload whose texts and numbers fit the messages that carry them. The text of a
      node without results can be read. */
  ghost predicate WellFormed(w: Workload) {
    && w.nodes >= 1 && |w.profiles| == w.nodes && |w.hosts| == w.nodes && w.readable([])
    && Sendable(DhtType(w.dhtType))
    && forall i :: 0 <= i < w.nodes ==>
         w.profiles[i].Profile? && Sendable(w.profiles[i]) && Sendable(StartMessage(w.duration, w.hosts, i))
  }

  function Ascii(s: string): bytes {
    seq(|s|, i requires 0 <= i < |s| => s[i] as int % 256)
  }

  // the order in which reportResults sends them
  const REPORTS: seq<bytes> := [
    Ascii("JoinLatency"), Ascii("LeaveLatency"), Ascii("GetLatency"), Ascii("PutLatency"),
    Ascii("JoinSuccessRate"), Ascii("GetSuccessRate")]

  predicate KnownType(kind: bytes) {
    kind in REPORTS || kind == Ascii("NodesStatus")
  }

  predicate IsLatency(kind: bytes) {
    kind in REPORTS[..4]
  }

  /** What pushResult takes; anything else ends the process. */
  predicate Acceptable(w: Workload, kind: bytes, value: bytes) {
    KnownType(kind) && (IsLatency(kind) ==> w.readable(value))
  }

  // ---------- the handlers ----------

  function Greeted(w: Workload, i: nat): Conn
    requires i < |w.profiles|
  {
    Send(Send(NEW_CONN, DhtType(w.dhtType)), w.profiles[i])
  }

  function Started(w: Workload, p: Peer, i: nat): Peer
    requires i < |w.hosts|
  {
    p.(conn := Wait(Send(p.conn, StartMessage(w.duration, w.hosts, i))))
  }

  /** handleAccept: the last controller to arrive starts them all. */
  function HandleAccept(w: Workload, m: State): State
    requires |m.peers| < w.nodes == |w.profiles| == |w.hosts|
  {
    var peers := m.peers + [Peer(Greeted(w, |m.peers|), [], Pending)];
    if |peers| < w.nodes then m.(peers := peers)
    else m.(startSent := true,
            peers := seq(|peers|, i requires 0 <= i < |peers| => Started(w, peers[i], i)))
  }

  function ControllerFinished(w: Workload, m: State): State {
    m.(finished := m.finished + 1, stopped := m.stopped || m.finished + 1 == w.nodes)
  }

  function SetPeer(m: State, i: nat, p: Peer): State
    requires i < |m.peers|
  {
    m.(peers := m.peers[i := p])
  }

  function HandleDisconnection(w: Workload, m: State, i: nat): State
    requires i < |m.peers|
  {
    var p := m.peers[i];
    var m' := SetPeer(m, i, p.(outcome := Failed, conn := p.conn.(waiting := Idle)));
    ControllerFinished(w, m'.(failed := m.failed + 1))
  }

  /** handleMessage and, for a report, pushResult's choice by type. */
  function HandleMessage(w: Workload, m: State, i: nat, d: Decoded): State
    requires i < |m.peers|
  {
    var p := m.peers[i];
    match d
    case Ok(Report(kind, value)) =>
      if Acceptable(w, kind, value)
      then SetPeer(m, i, p.(results := p.results + [Pushed(kind, value)], conn := Wait(p.conn)))
      else m.(crashed := true)
    case Ok(Finish) => ControllerFinished(w, SetPeer(m, i, p.(outcome := Completed)))
    case _ => m.(crashed := true)
  }

  function HeaderArrived(w: Workload, m: State, i: nat): State
    requires i < |m.peers| && HeaderReady(m.peers[i].conn)
  {
    var p := m.peers[i];
    var (conn, early) := HeaderRead(p.conn);
    var m' := SetPeer(m, i, p.(conn := conn));
    if early.Some? then HandleMessage(w, m', i, early.value) else m'
  }

  function BodyArrived(w: Workload, m: State, i: nat): State
    requires i < |m.peers| && BodyReady(m.peers[i].conn)
  {
    var p := m.peers[i];
    var (conn, message) := BodyRead(p.conn);
    HandleMessage(w, SetPeer(m, i, p.(conn := conn)), i, message)
  }

  /** What pushNodesStatus publishes. */
  function NodesStatus(w: Workload, m: State): (int, int, int) {
    (m.finished - m.failed, m.failed, w.nodes - m.finished)
  }

  // ---------- the master object ----------

  class DhtperfMaster {
    const workload: Workload
    var controllers: seq<ControllerConnection>
    var startMessagesSent: bool
    var finishedControllers: nat
    var failedControllers: nat
    var stopped: bool
    var exited: bool
    ghost var results: seq<seq<Pushed>>
    ghost var outcomes: seq<Outcome>

    ghost predicate Valid()
      reads this
    {
      && |results| == |outcomes| == |controllers| <= workload.nodes
      && WellFormed(workload)
      && forall i, j :: 0 <= i < j < |controllers| ==> controllers[i] != controllers[j]
    }

    ghost function PeerAt(i: nat): Peer
      requires Valid() && i < |controllers|
      reads this, controllers
    {
      Peer(controllers[i].Value(), results[i], outcomes[i])
    }

    ghost function Value(): State
      requires Valid()
      reads this, controllers
    {
      State(seq(|controllers|, i requires 0 <= i < |controllers| && Valid() reads this, controllers => PeerAt(i)),
            startMessagesSent, finishedControllers, failedControllers, stopped, exited)
    }

    constructor (workload: Workload)
      requires WellFormed(workload)
      ensures Valid() && this.workload == workload && Value() == NEW_MASTER
    {
      this.workload := workload;
      controllers, results, outcomes := [], [], [];
      startMessagesSent, finishedControllers, failedControllers, stopped, exited := false, 0, 0, false, false;
    }

    method ControllerDone()
      requires Valid()
      modifies this`finishedControllers, this`stopped
      ensures Valid() && Value() == ControllerFinished(workload, old(Value()))
      ensures finishedControllers == old(finishedControllers) + 1
      ensures stopped == (old(stopped) || finishedControllers == workload.nodes)
    {
      finishedControllers := finishedControllers + 1;
      if finishedControllers == workload.nodes {
        stopped := true;
      }
    }

    method Disconnected(i: nat)
      requires Valid() && i < |controllers|
      modifies this, controllers[i]
      ensures Valid() && controllers == old(controllers)
      ensures Value() == HandleDisconnection(workload, old(Value()), i)
      ensures failedControllers == old(failedControllers) + 1 && finishedControllers == old(finishedControllers) + 1
      ensures results == old(results)
    {
      ghost var before := Value();
      controllers[i].waiting := Idle;
      failedControllers := failedControllers + 1;
      outcomes := outcomes[i := Failed];
      assert Value().peers == before.peers[i := PeerAt(i)];
      ControllerDone();
    }

    method Message(i: nat, d: Decoded)
      requires Valid() && i < |controllers|
      modifies this, controllers[i]
      ensures Valid() && controllers == old(controllers)
      ensures Value() == HandleMessage(workload, old(Value()), i, d)
      ensures exited == (old(exited) || !(d == Ok(Finish) || (d.Ok? && d.message.Report?
                         && Acceptable(workload, d.message.kind, d.message.value))))
      ensures d.Ok? && d.message.Report? && exited == old(exited) == false ==>
                results == old(results)[i := old(results)[i] + [Pushed(d.message.kind, d.message.value)]]
      ensures d == Ok(Finish) ==> finishedControllers == old(finishedControllers) + 1
      ensures failedControllers == old(failedControllers)
    {
      hide StartMessage, Encode, Sendable;
      ghost var before := Value();
      match d {
        case Ok(Report(kind, value)) =>
          if Acceptable(workload, kind, value) {
            results := results[i := results[i] + [Pushed(kind, value)]];
            controllers[i].AsyncWaitForMessage();
            assert Value().peers == before.peers[i := PeerAt(i)];
          } else {
            exited := true;
            assert Value().peers == before.peers;
          }
        case Ok(Finish) =>
          outcomes := outcomes[i := Completed];
          assert Value().peers == before.peers[i := PeerAt(i)];
          ControllerDone();
        case _ =>
          exited := true;
          assert Value().peers == before.peers;
      }
    }

    /** pushNodesStatus */
    method PushNodesStatus() returns (finished: int, failed: int, unfinished: int)
      requires Valid()
      ensures (finished, failed, unfinished) == NodesStatus(workload, Value())
      ensures failed == failedControllers && finished + failed == finishedControllers
      ensures unfinished == workload.nodes - finishedControllers
    {
      failed := failedControllers;
      finished := finishedControllers - failedControllers;
      unfinished := workload.nodes - finishedControllers;
    }

    method ReadHeader(i: nat)
      requires Valid() && i < |controllers| && HeaderReady(controllers[i].Value())
      modifies this, controllers[i]
      ensures Valid() && controllers == old(controllers)
      ensures Value() == HeaderArrived(workload, old(Value()), i)
    {
      ghost var before := Value();
      var early := controllers[i].HandleHeaderRead();
      assert Value().peers == before.peers[i := PeerAt(i)];
      if early.Some? {
        Message(i, early.value);
      }
    }

    method ReadBody(i: nat)
      requires Valid() && i < |controllers| && BodyReady(controllers[i].Value())
      modifies this, controllers[i]
      ensures Valid() && controllers == old(controllers)
      ensures Value() == BodyArrived(workload, old(Value()), i)
    {
      ghost var before := Value();
      var message := controllers[i].HandleBodyRead();
      assert Value().peers == before.peers[i := PeerAt(i)];
      Message(i, message);
    }

    method Accept(controller: ControllerConnection)
      requires Valid() && |controllers| < workload.nodes
      requires controller !in controllers && controller.Value() == NEW_CONN
      modifies this, controller, controllers
      ensures Valid() && Value() == HandleAccept(workload, old(Value()))
    {
      hide StartMessage, Encode, Sendable;
      ghost var before := Value();
      var number := |controllers|;
      controller.SendMessage(DhtType(workload.dhtType));
      controller.SendMessage(workload.profiles[number]);
      controllers := controllers + [controller];
      results, outcomes := results + [[]], outcomes + [Pending];
      assert Value().peers == before.peers + [Peer(Greeted(workload, number), [], Pending)];
      if |controllers| == workload.nodes {
        SendStartMessages();
      }
    }

    method SendStartMessages()
      requires Valid() && |controllers| == workload.nodes
      modifies this`startMessagesSent, controllers
      ensures Valid() && startMessagesSent
      ensures var m := old(Value());
              Value() == m.(startSent := true,
                peers := seq(|m.peers|, i requires 0 <= i < |m.peers| && |m.peers| == |workload.hosts| =>
                             Started(workload, m.peers[i], i)))
    {
      hide StartMessage, Encode, Sendable, Acceptable;
      var messages := MakeStartMessages(workload.duration, workload.hosts);
      ghost var before := Value().peers;
      for i := 0 to |controllers|
        invariant Valid()
        invariant forall k :: 0 <= k < i ==> PeerAt(k) == Started(workload, before[k], k)
        invariant forall k :: i <= k < |controllers| ==> PeerAt(k) == before[k]
        modifies controllers
      {
        StartOne(i, messages[i]);
      }
      startMessagesSent := true;
    }

    method StartOne(i: nat, message: Message)
      requires Valid() && |controllers| == workload.nodes && i < |controllers|
      requires message == StartMessage(workload.duration, workload.hosts, i)
      modifies controllers[i]
      ensures Valid() && PeerAt(i) == Started(workload, old(PeerAt(i)), i)
      ensures forall k :: 0 <= k < |controllers| && k != i ==> PeerAt(k) == old(PeerAt(k))
    {
      controllers[i].SendMessage(message);
      controllers[i].AsyncWaitForMessage();
    }
  }
}
