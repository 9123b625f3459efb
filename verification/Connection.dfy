/** The master's end of one connection: a header read, then a body read into a buffer that is
    kept from message to message. */
module Connection {
  import opened Options
  import opened Codec

  datatype Waiting = Idle | ForHeader | ForBody

  /** incoming holds the bytes sent to the master and not yet read, outgoing those sent by it. */
  datatype Conn = Conn(
    waiting: Waiting, opcode: int, bodySize: nat, bodyBuffer: bytes,
    incoming: bytes, outgoing: bytes)

  const NEW_CONN := Conn(Idle, 0, 0, [], [], [])

  function Send(c: Conn, m: Message): Conn {
    c.(outgoing := c.outgoing + Encode(m))
  }

  function Wait(c: Conn): Conn {
    c.(waiting := ForHeader)
  }

  predicate HeaderReady(c: Conn) {
    c.waiting.ForHeader? && |c.incoming| >= HEADER_SIZE
  }

  predicate BodyReady(c: Conn) {
    c.waiting.ForBody? && |c.incoming| >= c.bodySize
  }

  function HeaderOf(c: Conn): (int, nat)
    requires HeaderReady(c)
  {
    (Signed(Number32(c.incoming[..4])), Number32(c.incoming[4..8]))
  }

  /** handleHeaderRead: a message without a body is handled at once, with the old buffer. */
  function HeaderRead(c: Conn): (Conn, Option<Decoded>)
    requires HeaderReady(c)
  {
    var (opcode, bodySize) := HeaderOf(c);
    var c' := c.(opcode := opcode, bodySize := bodySize, incoming := c.incoming[HEADER_SIZE..]);
    if bodySize > 0 then (c'.(waiting := ForBody), None)
    else (c'.(waiting := Idle), Some(FromBits(opcode, 0, c.bodyBuffer)))
  }

  /** handleBodyRead */
  function BodyRead(c: Conn): (Conn, Decoded)
    requires BodyReady(c)
  {
    var body := c.incoming[..c.bodySize];
    (c.(waiting := Idle, bodyBuffer := body, incoming := c.incoming[c.bodySize..]),
     FromBits(c.opcode, c.bodySize, body))
  }

  // ---------- one message ----------

  lemma HeaderBack(m: Message, tail: bytes)
    requires |Body(m)| < 0x1_0000_0000
    ensures var s := Encode(m) + tail;
            && |s| >= HEADER_SIZE + |Body(m)|
            && Signed(Number32(s[..4])) == Opcode(m) && Number32(s[4..8]) == |Body(m)|
            && s[HEADER_SIZE..] == Body(m) + tail
  {
    Bits32Back(Opcode(m));
    Bits32Back(|Body(m)|);
    var s := Encode(m) + tail;
    assert s[..4] == Bits32(Opcode(m)) && s[4..8] == Bits32(|Body(m)|);
  }

  // ---------- the stream ----------

  function Stream(ms: seq<Message>): bytes {
    if ms == [] then [] else Encode(ms[0]) + Stream(ms[1..])
  }

  ghost predicate AllSendable(ms: seq<Message>) {
    forall i :: 0 <= i < |ms| ==> Sendable(ms[i])
  }

  /** Waits for one message and reads it, if all of it has arrived. */
  function ReadOne(c: Conn): (Conn, Option<Decoded>) {
    var w := Wait(c);
    if !HeaderReady(w) then (w, None)
    else
      var (h, early) := HeaderRead(w);
      if early.Some? then (h, early)
      else if !BodyReady(h) then (h, None)
      else var (b, d) := BodyRead(h); (b, Some(d))
  }

  function ReadMany(c: Conn, n: nat): (Conn, seq<Option<Decoded>>)
    decreases n
  {
    if n == 0 then (c, [])
    else
      var (c', d) := ReadOne(c);
      var (c'', rest) := ReadMany(c', n - 1);
      (c'', [d] + rest)
  }

  lemma ReadsOne(c: Conn, m: Message, tail: bytes)
    requires Sendable(m) && c.incoming == Encode(m) + tail
    ensures var (c', d) := ReadOne(c); d == Some(Ok(m)) && c'.incoming == tail && c'.waiting.Idle?
  {
    hide Encode, Body, FromBits, Number32, Signed;
    HeaderBack(m, tail);
    if Body(m) == [] {
      EncodedDecodes(m, c.bodyBuffer);
    } else {
      assert (Body(m) + tail)[..|Body(m)|] == Body(m) && (Body(m) + tail)[|Body(m)|..] == tail;
      EncodedDecodes(m, Body(m));
    }
  }

  /** Framing: whatever the connection has read before, reading a stream of messages gives those
      messages, in order, and leaves exactly the bytes that follow them. */
  lemma {:induction false} StreamReadsBack(c: Conn, ms: seq<Message>, tail: bytes)
    requires AllSendable(ms) && c.incoming == Stream(ms) + tail
    ensures var (c', ds) := ReadMany(c, |ms|);
            && |ds| == |ms| && c'.incoming == tail
            && forall i :: 0 <= i < |ms| ==> ds[i] == Some(Ok(ms[i]))
    decreases |ms|
  {
    hide Encode, ReadOne, Sendable;
    if ms == [] {
      assert Stream(ms) + tail == tail;
    } else {
      var rest := Stream(ms[1..]) + tail;
      assert c.incoming == Encode(ms[0]) + rest;
      ReadsOne(c, ms[0], rest);
      StreamReadsBack(ReadOne(c).0, ms[1..], tail);
    }
  }

  lemma PrefixFree(m: Message, tail: bytes, m': Message, tail': bytes)
    requires Sendable(m) && Sendable(m') && Encode(m) + tail == Encode(m') + tail'
    ensures m == m' && tail == tail'
  {
    var c := NEW_CONN.(incoming := Encode(m) + tail);
    ReadsOne(c, m, tail);
    ReadsOne(c, m', tail');
  }

  /** Two lists of messages never give the same bytes. */
  lemma {:induction false} StreamUnique(ms: seq<Message>, ms': seq<Message>)
    requires AllSendable(ms) && AllSendable(ms') && Stream(ms) == Stream(ms')
    ensures ms == ms'
    decreases |ms|
  {
    if ms != [] && ms' != [] {
      PrefixFree(ms[0], Stream(ms[1..]), ms'[0], Stream(ms'[1..]));
      StreamUnique(ms[1..], ms'[1..]);
      assert ms == [ms[0]] + ms[1..] && ms' == [ms'[0]] + ms'[1..];
    }
  }

  lemma {:induction false} StreamAppend(ms: seq<Message>, m: Message)
    ensures Stream(ms + [m]) == Stream(ms) + Encode(m)
    decreases |ms|
  {
    if ms == [] {
      assert ms + [m] == [m];
      assert Stream([m][1..]) == [];
    } else {
      assert (ms + [m])[1..] == ms[1..] + [m];
      StreamAppend(ms[1..], m);
      assert Encode(ms[0]) + (Stream(ms[1..]) + Encode(m)) == (Encode(ms[0]) + Stream(ms[1..])) + Encode(m);
    }
  }

  // ---------- the connection object ----------

  class ControllerConnection {
    var waiting: Waiting
    var opcode: int
    var bodySize: nat
    var bodyBuffer: bytes
    var writeBuffer: bytes
    var incoming: bytes
    var outgoing: bytes

    ghost function Value(): Conn
      reads this
    {
      Conn(waiting, opcode, bodySize, bodyBuffer, incoming, outgoing)
    }

    constructor ()
      ensures Value() == NEW_CONN
    {
      waiting, opcode, bodySize, bodyBuffer := Idle, 0, 0, [];
      writeBuffer, incoming, outgoing := [], [], [];
    }

    method SendMessage(m: Message)
      requires Sendable(m)
      modifies this
      ensures Value() == Send(old(Value()), m)
    {
      var bits := ToBits(m);
      writeBuffer := bits[..];
      outgoing := outgoing + writeBuffer;
    }

    method AsyncWaitForMessage()
      modifies this
      ensures Value() == Wait(old(Value()))
    {
      waiting := ForHeader;
    }

    method HandleHeaderRead() returns (message: Option<Decoded>)
      requires HeaderReady(Value())
      modifies this
      ensures (Value(), message) == HeaderRead(old(Value()))
    {
      opcode, bodySize := Signed(Number32(incoming[..4])), Number32(incoming[4..8]);
      incoming := incoming[HEADER_SIZE..];
      if bodySize > 0 {
        waiting := ForBody;
        message := None;
      } else {
        waiting := Idle;
        message := Some(FromBits(opcode, bodySize, bodyBuffer));
      }
    }

    method HandleBodyRead() returns (message: Decoded)
      requires BodyReady(Value())
      modifies this
      ensures (Value(), message) == BodyRead(old(Value()))
    {
      bodyBuffer := incoming[..bodySize];
      incoming := incoming[bodySize..];
      waiting := Idle;
      message := FromBits(opcode, bodySize, bodyBuffer);
    }
  }
}
