/** The controller's end of its connection: it reads three messages, one call each, and in the end
    writes its reports. incoming is all that the master will ever write and is not yet read. */
module ControllerLink {
  import opened Options
  import opened Codec
  import opened Connection
  import opened Master
  import P = Protocol

  function Zeros(n: nat): bytes {
    seq(n, _ => 0)
  }

  /** The buffer of n zeros after a read into it: an error of this read is not looked at. */
  function ReadInto(n: nat, stream: bytes): bytes {
    if |stream| >= n then stream[..n] else stream + Zeros(n - |stream|)
  }

  function Unread(n: nat, stream: bytes): bytes {
    if |stream| >= n then stream[n..] else []
  }

  /** getNextMessage: the message or None where the process ends, and what is left to read. */
  function NextMessage(expected: int, stream: bytes): (Option<Message>, bytes) {
    if |stream| < HEADER_SIZE then (None, [])
    else
      var (opcode, bodySize) := (Signed(Number32(stream[..4])), Number32(stream[4..8]));
      var rest := stream[HEADER_SIZE..];
      if opcode != expected then (None, rest)
      else
        match FromBits(opcode, bodySize, ReadInto(bodySize, rest))
        case Ok(m) => (Some(m), Unread(bodySize, rest))
        case Fail => (None, Unread(bodySize, rest))
  }

  lemma HeaderParts(m: Message, body: bytes)
    requires Sendable(m)
    ensures var stream := Header(Opcode(m), |Body(m)|) + body;
            && |stream| >= HEADER_SIZE && Signed(Number32(stream[..4])) == Opcode(m)
            && Number32(stream[4..8]) == |Body(m)| && stream[HEADER_SIZE..] == body
  {
    hide Body, Number32, Bits32;
    var stream := Header(Opcode(m), |Body(m)|) + body;
    assert stream[..4] == Bits32(Opcode(m));
    assert stream[4..8] == Bits32(|Body(m)|);
    Bits32Back(Opcode(m));
    Bits32Back(|Body(m)|);
  }

  /** A message that arrives whole is returned, and exactly its bytes are consumed. */
  lemma WholeMessage(m: Message, tail: bytes)
    requires Sendable(m)
    ensures NextMessage(Opcode(m), Encode(m) + tail) == (Some(m), tail)
  {
    hide Body, FromBits, Number32, Header, Opcode;
    assert Encode(m) + tail == Header(Opcode(m), |Body(m)|) + (Body(m) + tail);
    hide Encode;
    HeaderParts(m, Body(m) + tail);
    assert (Body(m) + tail)[..|Body(m)|] == Body(m) && (Body(m) + tail)[|Body(m)|..] == tail;
    EncodedDecodes(m, Body(m));
    hide Sendable;
  }

  lemma WrongOpcode(expected: int, stream: bytes)
    requires |stream| >= HEADER_SIZE && Signed(Number32(stream[..4])) != expected
    ensures NextMessage(expected, stream).0.None?
  {
    hide FromBits, Number32;
  }

  lemma OpcodeOf(m: Message, tail: bytes)
    requires Sendable(m)
    ensures var s := Encode(m) + tail; |s| >= HEADER_SIZE && Signed(Number32(s[..4])) == Opcode(m)
  {
    HeaderBack(m, tail);
  }

  /** Of any message that arrives whole only the expected one is returned. */
  lemma ExpectedIff(expected: int, m: Message, tail: bytes)
    requires Sendable(m)
    ensures NextMessage(expected, Encode(m) + tail).0.Some? <==> expected == Opcode(m)
  {
    hide NextMessage, Encode, Opcode, Sendable, Number32, Signed;
    if expected == Opcode(m) {
      WholeMessage(m, tail);
    } else {
      OpcodeOf(m, tail);
      WrongOpcode(expected, Encode(m) + tail);
    }
  }

  /** A stream that ends within a header ends the process. */
  lemma HeaderCut(expected: int, stream: bytes)
    requires |stream| < HEADER_SIZE
    ensures NextMessage(expected, stream).0.None?
  {
  }

  /** The body that is decoded when only part of a message arrives. */
  function Padded(m: Message, n: nat): bytes
    requires HEADER_SIZE <= n <= |Encode(m)|
  {
    ReadInto(|Body(m)|, Body(m)[..n - HEADER_SIZE])
  }

  lemma CutDecodes(m: Message, n: nat)
    requires Sendable(m) && HEADER_SIZE <= n <= |Encode(m)|
    ensures |Padded(m, n)| == |Body(m)| < 0x1_0000_0000
    ensures forall k :: 0 <= k < |Body(m)| ==>
              Padded(m, n)[k] == if k < n - HEADER_SIZE then Encode(m)[HEADER_SIZE + k] else 0
    ensures forall k :: 0 <= k < |Body(m)| ==> Encode(m)[HEADER_SIZE + k] == Body(m)[k]
    ensures var d := FromBits(Opcode(m), |Body(m)|, Padded(m, n));
            NextMessage(Opcode(m), Encode(m)[..n]).0 == if d.Ok? then Some(d.message) else None
  {
    hide Body, FromBits, Number32, Bits32, Opcode;
    var part := Body(m)[..n - HEADER_SIZE];
    assert Encode(m)[..n] == Header(Opcode(m), |Body(m)|) + part;
    HeaderParts(m, part);
  }

  /** A message cut short after its header comes back unharmed exactly when all the bytes that
      are missing are zeros. */
  lemma CutUnharmedIff(m: Message, n: nat)
    requires Sendable(m) && HEADER_SIZE <= n < |Encode(m)|
    ensures NextMessage(Opcode(m), Encode(m)[..n]).0 == Some(m)
       <==> forall k :: n <= k < |Encode(m)| ==> Encode(m)[k] == 0
  {
    CutDecodes(m, n);
    DecodesIffEncoded(Opcode(m), Padded(m, n), m);
    hide Body, FromBits, Opcode, Sendable, ReadInto, Encode, Padded, NextMessage;
    if Padded(m, n) == Body(m) {
      forall k | n <= k < |Encode(m)| ensures Encode(m)[k] == 0 {
        assert Encode(m)[HEADER_SIZE + (k - HEADER_SIZE)] == Body(m)[k - HEADER_SIZE];
      }
    }
    if forall k :: n <= k < |Encode(m)| ==> Encode(m)[k] == 0 {
      assert forall k :: 0 <= k < |Body(m)| ==> Padded(m, n)[k] == Body(m)[k];
      assert Padded(m, n) == Body(m);
    }
  }

  lemma NumberGrows(s: bytes, t: bytes)
    requires |s| == |t| == 4 && forall i :: 0 <= i < 4 ==> s[i] <= t[i]
    ensures Number32(s) <= Number32(t) < 0x1_0000_0000
    ensures Number32(s) == Number32(t) <==> s == t
  {
    Number32Back(s);
    Number32Back(t);
  }

  /** Whether a profile is accepted is decided by its sizes, which zeros can only make smaller. */
  lemma CutProfile(m: Message, padded: bytes)
    requires m.Profile? && Sendable(m) && |padded| == |Body(m)|
    requires forall k :: 0 <= k < SIZES_SIZE ==> padded[k] <= Body(m)[k]
    ensures DecodeProfile(|padded|, padded).Ok? <==> padded[..SIZES_SIZE] == Body(m)[..SIZES_SIZE]
  {
    hide Bits32, Number32;
    var body := Body(m);
    var parts := m.join + m.leave + m.put + m.get;
    assert body == Sizes(m) + parts;
    SizesBack(m, parts);
    assert |padded| == SIZES_SIZE + |m.join| + |m.leave| + |m.put| + |m.get|;
    hide Body, Sizes;
    NumberGrows(padded[0..4], body[0..4]);
    NumberGrows(padded[4..8], body[4..8]);
    NumberGrows(padded[8..12], body[8..12]);
    NumberGrows(padded[12..16], body[12..16]);
    SameQuarters(padded[..SIZES_SIZE], body[..SIZES_SIZE]);
    SliceOfSlice(padded);
    SliceOfSlice(body);
  }

  lemma SliceOfSlice(s: bytes)
    requires |s| >= SIZES_SIZE
    ensures s[..SIZES_SIZE][0..4] == s[0..4] && s[..SIZES_SIZE][4..8] == s[4..8]
    ensures s[..SIZES_SIZE][8..12] == s[8..12] && s[..SIZES_SIZE][12..16] == s[12..16]
  {
  }

  lemma SameQuarters(s: bytes, t: bytes)
    requires |s| == |t| == SIZES_SIZE
    ensures s == t <==> s[0..4] == t[0..4] && s[4..8] == t[4..8] && s[8..12] == t[8..12] && s[12..16] == t[12..16]
  {
    assert s == s[0..4] + s[4..8] + s[8..12] + s[12..16];
    assert t == t[0..4] + t[4..8] + t[8..12] + t[12..16];
  }

  /** Where a message can be cut, after its header, without being refused. */
  ghost predicate CutAccepted(m: Message, n: nat)
    requires HEADER_SIZE <= n < |Encode(m)|
  {
    match m
    case DhtType(_) => true
    case Start(_, _, _, _) => true
    case Profile(_, _, _, _) => forall k :: n <= k < HEADER_SIZE + SIZES_SIZE ==> Encode(m)[k] == 0
    case Report(kind, _) => n > HEADER_SIZE + |kind|
    case Finish => true
  }

  lemma CutReport(m: Message, n: nat)
    requires m.Report? && Sendable(m) && HEADER_SIZE <= n < |Encode(m)| && |Padded(m, n)| == |Body(m)|
    ensures FromBits(4, |Body(m)|, Padded(m, n)).Ok? <==> n > HEADER_SIZE + |m.kind|
  {
    assert SPACE !in m.kind;
    hide Encode, Sendable;
    var body, padded := Body(m), Padded(m, n);
    var i := Find(padded, SPACE);
    if n > HEADER_SIZE + |m.kind| {
      assert padded[|m.kind|] == body[|m.kind|] == SPACE;
      assert forall j :: 0 <= j < i ==> padded[..i][j] == padded[j];
    } else {
      assert forall k :: 0 <= k < |padded| ==>
          padded[k] == (if k < n - HEADER_SIZE then m.kind[k] else 0);
      assert forall k :: 0 <= k < |padded| ==> padded[k] != SPACE;
    }
  }

  /** A message cut short after its header is passed off as a whole one, with zeros for what is
      missing: always for a DHT type or a start message, for a profile when no byte of its sizes
      is lost but zeros, for a report when its type and the space after it have arrived. */
  lemma CutAcceptedIff(m: Message, n: nat)
    requires Sendable(m) && HEADER_SIZE <= n < |Encode(m)|
    ensures NextMessage(Opcode(m), Encode(m)[..n]).0.Some? <==> CutAccepted(m, n)
  {
    CutDecodes(m, n);
    match m {
      case Profile(_, _, _, _) =>
        hide NextMessage, Number32, Signed, Bits32, Body, Sendable;
        assert |Body(m)| >= SIZES_SIZE by {
          ProfileIsLong(m);
        }
        CutProfile(m, Padded(m, n));
        CutSizes(m, n);
      case Report(_, _) =>
        CutReport(m, n);
      case Start(_, _, _, _) =>
      case DhtType(_) =>
      case Finish =>
    }
  }

  lemma ProfileIsLong(m: Message)
    requires m.Profile?
    ensures |Body(m)| >= SIZES_SIZE
  {
  }

  lemma CutSizes(m: Message, n: nat)
    requires m.Profile? && Sendable(m) && HEADER_SIZE <= n < |Encode(m)| && |Padded(m, n)| == |Body(m)| >= SIZES_SIZE
    ensures Padded(m, n)[..SIZES_SIZE] == Body(m)[..SIZES_SIZE] <==> CutAccepted(m, n)
  {
    CutDecodes(m, n);
    hide Body, Sendable, ReadInto, Encode, Padded, NextMessage, FromBits, Opcode;
    SizesIff(Padded(m, n), Body(m), Encode(m), n);
  }

  // the sizes survive the cut exactly when the bytes of them that are missing are zeros
  lemma SizesIff(padded: bytes, body: bytes, stream: bytes, n: nat)
    requires |padded| == |body| >= SIZES_SIZE && |stream| == HEADER_SIZE + |body| && n >= HEADER_SIZE
    requires forall k :: 0 <= k < |body| ==> stream[HEADER_SIZE + k] == body[k]
    requires forall k :: 0 <= k < |body| ==> padded[k] == if k < n - HEADER_SIZE then stream[HEADER_SIZE + k] else 0
    ensures padded[..SIZES_SIZE] == body[..SIZES_SIZE]
       <==> forall k :: n <= k < HEADER_SIZE + SIZES_SIZE ==> stream[k] == 0
  {
    if padded[..SIZES_SIZE] == body[..SIZES_SIZE] {
      forall k | n <= k < HEADER_SIZE + SIZES_SIZE ensures stream[k] == 0 {
        assert padded[k - HEADER_SIZE] == body[k - HEADER_SIZE] by {
          assert padded[..SIZES_SIZE][k - HEADER_SIZE] == body[..SIZES_SIZE][k - HEADER_SIZE];
        }
        assert stream[HEADER_SIZE + (k - HEADER_SIZE)] == body[k - HEADER_SIZE];
      }
    }
    if forall k :: n <= k < HEADER_SIZE + SIZES_SIZE ==> stream[k] == 0 {
      assert forall k :: 0 <= k < SIZES_SIZE ==> padded[k] == body[k];
    }
  }

  /** "dummy" cut after three letters is returned as "dum" and two zeros. */
  lemma CutDhtType()
    ensures NextMessage(1, Encode(DhtType(Ascii("dummy")))[..11]).0 == Some(DhtType(Ascii("dum") + [0, 0]))
  {
    var m := DhtType(Ascii("dummy"));
    CutDecodes(m, 11);
    assert Body(m) == [100, 117, 109, 109, 121];
    assert Padded(m, 11) == Ascii("dum") + [0, 0];
    assert Padded(m, 11)[..5] == Padded(m, 11);
  }

  /** The two steps of a controller in the protocol, header and body, are one such call. */
  lemma StepsAreOneCall(c: P.Ctrl, out: bytes)
    requires c.phase.Awaiting? && c.header.None? && |out| >= HEADER_SIZE
    ensures var (c1, out1) := P.CtrlReadHeader(c, out);
            var (message, rest) := NextMessage(|c.received| + 1, out);
            if c1.header.None? then c1.phase.Confused? && message.None? && rest == out1
            else |out1| >= c1.header.value ==>
                   var (c2, out2) := P.CtrlReadBody(c1, out1);
                   out2 == rest && (c2.phase.Confused? <==> message.None?)
                   && (message.Some? ==> c2.received == c.received + [message.value])
  {
    hide FromBits, Number32, Signed;
  }

  /** What one controller writes in its life, given the six results of its node. */
  function Written(results: seq<bytes>): seq<Message>
    requires |results| == 6
  {
    [Report(REPORTS[0], results[0]), Report(REPORTS[1], results[1]), Report(REPORTS[2], results[2]),
     Report(REPORTS[3], results[3]), Report(REPORTS[4], results[4]), Report(REPORTS[5], results[5]), Finish]
  }

  lemma WrittenAsPromised(results: seq<bytes>)
    requires |results| == 6 && forall k :: 0 <= k < 6 ==> |results[k]| < 0x8000_0000
    ensures P.ReportsOk(Written(results)) && AllSendable(Written(results))
    ensures forall k :: 0 <= k < 6 ==> Written(results)[k].value == results[k]
  {
    NamesHaveNoSpace();
  }

  /** The names of the reports, in the order in which they are written. */
  lemma ReportNames()
    ensures REPORTS[0] == Ascii("JoinLatency") && REPORTS[1] == Ascii("LeaveLatency")
    ensures REPORTS[2] == Ascii("GetLatency") && REPORTS[3] == Ascii("PutLatency")
    ensures REPORTS[4] == Ascii("JoinSuccessRate") && REPORTS[5] == Ascii("GetSuccessRate")
  {
  }

  lemma NamesHaveNoSpace()
    ensures |REPORTS| == 6 && forall k :: 0 <= k < 6 ==> SPACE !in REPORTS[k] && |REPORTS[k]| <= 15
  {
    var names := ["JoinLatency", "LeaveLatency", "GetLatency", "PutLatency", "JoinSuccessRate", "GetSuccessRate"];
    forall k | 0 <= k < 6 ensures SPACE !in REPORTS[k] && |REPORTS[k]| <= 15 {
      assert REPORTS[k] == Ascii(names[k]);
    }
  }

  class Link {
    var incoming: bytes
    var outgoing: bytes

    constructor (willArrive: bytes)
      ensures incoming == willArrive && outgoing == []
    {
      incoming, outgoing := willArrive, [];
    }

    /** getNextMessage; None where the process ends. */
    method GetNextMessage(expected: int) returns (message: Option<Message>)
      modifies this`incoming
      ensures (message, incoming) == NextMessage(expected, old(incoming))
    {
      hide FromBits, Number32, Signed;
      if |incoming| < HEADER_SIZE {
        incoming := [];
        return None;
      }
      var opcode, bodySize := Signed(Number32(incoming[..4])), Number32(incoming[4..8]);
      incoming := incoming[HEADER_SIZE..];
      if opcode != expected {
        return None;
      }
      var body := ReadInto(bodySize, incoming);
      incoming := Unread(bodySize, incoming);
      match FromBits(opcode, bodySize, body) {
        case Ok(m) => return Some(m);
        case Fail => return None;
      }
    }

    /** run up to its start: the type, the profile and the start message are read in this order. */
    method Prepare(ghost sent: seq<Message>, ghost tail: bytes) returns (received: seq<Message>)
      requires |sent| == 3 && AllSendable(sent) && forall k :: 0 <= k < 3 ==> Opcode(sent[k]) == k + 1
      requires incoming == Stream(sent) + tail
      modifies this`incoming
      ensures received == sent && incoming == tail
    {
      hide NextMessage, Encode, Opcode, Sendable;
      received := [];
      assert sent[0..] == sent;
      for k := 0 to 3
        invariant received == sent[..k] && incoming == Stream(sent[k..]) + tail
      {
        assert sent[k..][1..] == sent[k + 1..];
        assert incoming == Encode(sent[k]) + (Stream(sent[k + 1..]) + tail);
        WholeMessage(sent[k], Stream(sent[k + 1..]) + tail);
        var message := GetNextMessage(k + 1);
        received := received + [message.value];
      }
      assert Stream([]) + tail == tail;
    }

    method Write(m: Message)
      requires Sendable(m)
      modifies this`outgoing
      ensures outgoing == old(outgoing) + Encode(m)
    {
      var bits := ToBits(m);
      outgoing := outgoing + bits[..];
    }

    /** reportResults, then sendFinishMessage. */
    method ReportAndFinish(join: bytes, leave: bytes, get: bytes, put: bytes, joinRate: bytes, getRate: bytes)
      requires |join| < 0x8000_0000 && |leave| < 0x8000_0000 && |get| < 0x8000_0000 && |put| < 0x8000_0000
      requires |joinRate| < 0x8000_0000 && |getRate| < 0x8000_0000
      modifies this`outgoing
      ensures outgoing == old(outgoing) + Stream([
                Report(Ascii("JoinLatency"), join), Report(Ascii("LeaveLatency"), leave),
                Report(Ascii("GetLatency"), get), Report(Ascii("PutLatency"), put),
                Report(Ascii("JoinSuccessRate"), joinRate), Report(Ascii("GetSuccessRate"), getRate), Finish])
      ensures outgoing == old(outgoing) + Stream(Written([join, leave, get, put, joinRate, getRate]))
    {
      hide Encode, Sendable, Ascii;
      var results := [join, leave, get, put, joinRate, getRate];
      WrittenAsPromised(results);
      ReportNames();
      ghost var all := Written(results);
      for k := 0 to 6
        invariant outgoing == old(outgoing) + Stream(all[..k])
      {
        assert all[..k + 1] == all[..k] + [all[k]];
        StreamAppend(all[..k], all[k]);
        Write(Report(REPORTS[k], results[k]));
      }
      assert all == all[..6] + [all[6]];
      StreamAppend(all[..6], all[6]);
      Write(Finish);
    }
  }
}
