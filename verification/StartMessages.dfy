/** The start messages: one DHT per run, created by node 0, and one port per node of a host. */
module StartMessages {
  import opened Codec

  function Occurrences(hosts: seq<bytes>, host: bytes): nat {
    if hosts == [] then 0
    else Occurrences(hosts[..|hosts| - 1], host) + if hosts[|hosts| - 1] == host then 1 else 0
  }

  /** The number of earlier nodes on the same host, as an uint16_t. */
  function PortOffset(hosts: seq<bytes>, i: nat): nat
    requires i < |hosts|
  {
    Occurrences(hosts[..i], hosts[i]) % 0x1_0000
  }

  function StartMessage(duration: nat, hosts: seq<bytes>, i: nat): Message
    requires i < |hosts|
  {
    Start(duration, if i == 0 then [] else hosts[0], 0, PortOffset(hosts, i))
  }

  /** messages are the start messages of these nodes, in their order. */
  ghost predicate Made(duration: nat, hosts: seq<bytes>, messages: seq<Message>) {
    |messages| == |hosts| && forall i :: 0 <= i < |hosts| ==> messages[i] == StartMessage(duration, hosts, i)
  }

  ghost function EarlierOnHost(hosts: seq<bytes>, i: nat): set<nat>
    requires i < |hosts|
  {
    set j: nat | j < i && hosts[j] == hosts[i]
  }

  ghost function OnHost(hosts: seq<bytes>, host: bytes): set<nat> {
    set j: nat | j < |hosts| && hosts[j] == host
  }

  lemma {:induction false} OccurrencesAreNodes(hosts: seq<bytes>, host: bytes)
    ensures Occurrences(hosts, host) == |OnHost(hosts, host)|
  {
    if hosts == [] {
      assert OnHost(hosts, host) == {};
    } else {
      var n := |hosts| - 1;
      OccurrencesAreNodes(hosts[..n], host);
      assert OnHost(hosts, host) == OnHost(hosts[..n], host) + if hosts[n] == host then {n} else {};
    }
  }

  /** The offset in a message is the number of earlier nodes on the host of its node. */
  lemma OffsetIsCount(duration: nat, hosts: seq<bytes>, messages: seq<Message>, i: nat)
    requires Made(duration, hosts, messages) && i < |hosts|
    ensures messages[i].Start? && messages[i].duration == duration
    ensures messages[i].selfPortOffset == |EarlierOnHost(hosts, i)| % 0x1_0000
  {
    OccurrencesAreNodes(hosts[..i], hosts[i]);
    assert EarlierOnHost(hosts, i) == OnHost(hosts[..i], hosts[i]);
  }

  /** sendStartMessages: a map counts the nodes of each host while the messages are made. */
  method MakeStartMessages(duration: nat, hosts: seq<bytes>) returns (messages: seq<Message>)
    ensures Made(duration, hosts, messages)
    ensures forall i :: 0 <= i < |hosts| ==>
              messages[i] == Start(duration, if i == 0 then [] else hosts[0], 0, |EarlierOnHost(hosts, i)| % 0x1_0000)
  {
    var nodesPerHost: map<bytes, nat> := map[];
    messages := [];
    for i := 0 to |hosts|
      invariant |messages| == i
      invariant forall h :: Occurrences(hosts[..i], h) == if h in nodesPerHost then nodesPerHost[h] else 0
      invariant forall k :: 0 <= k < i ==> messages[k] == StartMessage(duration, hosts, k)
    {
      var entryPointNodeNumber := 0;
      var entryPointHost := if i == 0 then [] else hosts[entryPointNodeNumber];
      var nodeHost := hosts[i];
      assert hosts[..i + 1][..i] == hosts[..i] && hosts[..i + 1][i] == nodeHost;
      if nodeHost in nodesPerHost {
        nodesPerHost := nodesPerHost[nodeHost := nodesPerHost[nodeHost] + 1];
      } else {
        nodesPerHost := nodesPerHost[nodeHost := 1];
      }
      var nodePortOffset := (nodesPerHost[nodeHost] - 1) % 0x1_0000;
      messages := messages + [Start(duration, entryPointHost, 0, nodePortOffset)];
    }
    forall i | 0 <= i < |hosts| ensures messages[i].selfPortOffset == |EarlierOnHost(hosts, i)| % 0x1_0000 {
      OffsetIsCount(duration, hosts, messages, i);
    }
  }

  // ---------- the network they describe ----------

  datatype Dht = Plain | Shifted | TwoPorts

  /** portOffsetToPort of the dummy, of most wrappers and of kaddemo, which takes two ports. */
  function Port(dht: Dht, offset: nat): nat {
    match dht
    case Plain => offset % 0x1_0000
    case Shifted => (offset + 5000) % 0x1_0000
    case TwoPorts => (offset * 2 + 5000) % 0x1_0000
  }

  /** The ports go up from 5000, or 0 for the dummy, until they no longer fit sixteen bits. */
  lemma PortNumbers(dht: Dht, offset: nat)
    ensures Port(Plain, offset) == offset <==> offset < 65536
    ensures Port(Shifted, offset) == 5000 + offset <==> offset < 60536
    ensures Port(TwoPorts, offset) == 5000 + 2 * offset <==> offset < 30268
  {
  }

  // how many nodes one host can carry
  function Room(dht: Dht): nat {
    if dht.TwoPorts? then 0x8000 else 0x1_0000
  }

  /** The port that node takes when it gets message m. */
  function SelfPort(dht: Dht, m: Message): nat
    requires m.Start?
  {
    Port(dht, m.selfPortOffset)
  }

  lemma RemainderOf(n: nat)
    requires n < 0x2_0000
    ensures n % 0x1_0000 == if n < 0x1_0000 then n else n - 0x1_0000
  {
  }

  lemma PortsDiffer(dht: Dht, a: nat, b: nat)
    requires a < b < Room(dht)
    ensures var p, q := Port(dht, a % 0x1_0000), Port(dht, b % 0x1_0000);
            p != q && (dht.TwoPorts? ==> p + 1 != q && q + 1 != p)
  {
    RemainderOf(a);
    RemainderOf(b);
    if dht.Shifted? {
      RemainderOf(a + 5000);
      RemainderOf(b + 5000);
    } else if dht.TwoPorts? {
      RemainderOf(a * 2 + 5000);
      RemainderOf(b * 2 + 5000);
    }
  }

  lemma OccurrencesGrow(hosts: seq<bytes>, host: bytes, i: nat, j: nat)
    requires i <= j <= |hosts|
    ensures Occurrences(hosts[..i], host) <= Occurrences(hosts[..j], host)
    decreases j
  {
    if i < j {
      assert hosts[..j][..j - 1] == hosts[..j - 1];
      OccurrencesGrow(hosts, host, i, j - 1);
    }
  }

  lemma OccurrencesBefore(hosts: seq<bytes>, i: nat, j: nat)
    requires i < j <= |hosts|
    ensures Occurrences(hosts[..i], hosts[i]) < Occurrences(hosts[..j], hosts[i])
  {
    assert hosts[..i + 1][..i] == hosts[..i];
    OccurrencesGrow(hosts, hosts[i], i + 1, j);
  }

  /** The node that is preceded by exactly n nodes of its host. */
  lemma NthOf(hosts: seq<bytes>, host: bytes, n: nat) returns (i: nat)
    requires n < Occurrences(hosts, host)
    ensures i < |hosts| && hosts[i] == host && Occurrences(hosts[..i], host) == n
  {
    var last := |hosts| - 1;
    if hosts[last] == host && Occurrences(hosts[..last], host) == n {
      i := last;
    } else {
      i := NthOf(hosts[..last], host, n);
      assert hosts[..last][..i] == hosts[..i];
    }
  }

  ghost predicate EndpointsDistinct(dht: Dht, hosts: seq<bytes>, messages: seq<Message>)
    requires |messages| == |hosts| && forall i :: 0 <= i < |hosts| ==> messages[i].Start?
  {
    forall i, j :: 0 <= i < j < |hosts| && hosts[i] == hosts[j] ==>
      SelfPort(dht, messages[i]) != SelfPort(dht, messages[j])
  }

  /** No two nodes are told the same port on one host exactly when no host has more nodes than
      ports. */
  lemma EndpointsDistinctIff(dht: Dht, duration: nat, hosts: seq<bytes>, messages: seq<Message>)
    requires Made(duration, hosts, messages)
    ensures EndpointsDistinct(dht, hosts, messages) <==> forall h :: |OnHost(hosts, h)| <= Room(dht)
  {
    forall h ensures Occurrences(hosts, h) == |OnHost(hosts, h)| {
      OccurrencesAreNodes(hosts, h);
    }
    hide OnHost;
    if forall h :: |OnHost(hosts, h)| <= Room(dht) {
      forall i, j | 0 <= i < j < |hosts| && hosts[i] == hosts[j]
        ensures SelfPort(dht, messages[i]) != SelfPort(dht, messages[j])
      {
        NeighboursDiffer(dht, duration, hosts, messages, i, j);
      }
    } else {
      var h :| |OnHost(hosts, h)| > Room(dht);
      CrowdedHost(dht, duration, hosts, messages, h);
    }
  }

  lemma NeighboursDiffer(dht: Dht, duration: nat, hosts: seq<bytes>, messages: seq<Message>, i: nat, j: nat)
    requires Made(duration, hosts, messages) && i < j < |hosts| && hosts[i] == hosts[j]
    requires Occurrences(hosts, hosts[i]) <= Room(dht)
    ensures SelfPort(dht, messages[i]) != SelfPort(dht, messages[j])
  {
    OccurrencesBefore(hosts, i, j);
    OccurrencesBefore(hosts, j, |hosts|);
    assert hosts[..|hosts|] == hosts;
    hide Occurrences;
    PortsDiffer(dht, Occurrences(hosts[..i], hosts[i]), Occurrences(hosts[..j], hosts[j]));
  }

  lemma CrowdedHost(dht: Dht, duration: nat, hosts: seq<bytes>, messages: seq<Message>, h: bytes)
    requires Made(duration, hosts, messages) && Occurrences(hosts, h) > Room(dht)
    ensures !EndpointsDistinct(dht, hosts, messages)
  {
    var first := NthOf(hosts, h, 0);
    var last := NthOf(hosts, h, Room(dht));
    if last < first {
      OccurrencesGrow(hosts, h, last, first);
    }
    hide Occurrences;
    assert SelfPort(dht, messages[first]) == SelfPort(dht, messages[last]);
  }

  lemma PairsApart(p: nat, q: nat)
    requires p != q && p + 1 != q && q + 1 != p
    ensures {p, p + 1} !! {q, q + 1}
  {
  }

  /** With two ports a node, the second ports do not get in the way either. */
  lemma TwoPortRangesDisjoint(duration: nat, hosts: seq<bytes>, messages: seq<Message>, i: nat, j: nat)
    requires Made(duration, hosts, messages) && i < j < |hosts| && hosts[i] == hosts[j]
    requires |OnHost(hosts, hosts[i])| <= Room(TwoPorts)
    ensures messages[i].Start? && messages[j].Start?
    ensures var p, q := SelfPort(TwoPorts, messages[i]), SelfPort(TwoPorts, messages[j]);
            {p, p + 1} !! {q, q + 1}
  {
    OccurrencesAreNodes(hosts, hosts[i]);
    OccurrencesBefore(hosts, i, j);
    OccurrencesBefore(hosts, j, |hosts|);
    assert hosts[..|hosts|] == hosts;
    var a, b := Occurrences(hosts[..i], hosts[i]), Occurrences(hosts[..j], hosts[j]);
    PortsDiffer(TwoPorts, a, b);
    PairsApart(Port(TwoPorts, a % 0x1_0000), Port(TwoPorts, b % 0x1_0000));
  }

  /** Only node 0 starts a new DHT, and every other node is pointed at the host and the port that
      node 0 is told to take. */
  lemma OneNetwork(dht: Dht, duration: nat, hosts: seq<bytes>, messages: seq<Message>, i: nat)
    requires Made(duration, hosts, messages) && i < |hosts| && forall h :: h in hosts ==> h != []
    ensures messages[i].Start? && messages[0].Start?
    ensures messages[i].entryPointHost == [] <==> i == 0
    ensures i != 0 ==> messages[i].entryPointHost == hosts[0]
    ensures Port(dht, messages[i].entryPointPortOffset) == SelfPort(dht, messages[0])
  {
    assert hosts[0] in hosts && hosts[..0] == [];
  }
}
