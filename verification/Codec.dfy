/** The binary protocol: what toBits writes and what the decoding constructors read back. Numbers
    are stored as on a little-endian host. */
module Codec {
  type byte = x: nat | x < 256
  type bytes = seq<byte>

  const HEADER_SIZE: nat := 8
  const SIZES_SIZE: nat := 16
  const SPACE: byte := 32

  datatype Message =
    | DhtType(kind: bytes)
    | Profile(join: bytes, leave: bytes, put: bytes, get: bytes)
    | Start(duration: nat, entryPointHost: bytes, entryPointPortOffset: nat, selfPortOffset: nat)
    | Report(kind: bytes, value: bytes)
    | Finish

  datatype Decoded = Ok(message: Message) | Fail

  // ---------- numbers ----------

  function Bits16(n: nat): (b: bytes)
    ensures |b| == 2
  {
    [n % 256, n / 256 % 256]
  }

  function Bits32(n: nat): (b: bytes)
    ensures |b| == 4
  {
    Bits16(n % 0x1_0000) + Bits16(n / 0x1_0000)
  }

  function Number16(s: bytes): nat
    requires |s| == 2
  {
    var low: nat, high: nat := s[0], s[1];
    low + 256 * high
  }

  function Number32(s: bytes): nat
    requires |s| == 4
  {
    Number16(s[..2]) + 0x1_0000 * Number16(s[2..])
  }

  // int32_t
  function Signed(n: nat): int {
    if n < 0x8000_0000 then n else n - 0x1_0000_0000
  }

  lemma Bits16Back(n: nat)
    requires n < 0x1_0000
    ensures Number16(Bits16(n)) == n
  {
  }

  lemma Bits32Back(n: nat)
    requires n < 0x1_0000_0000
    ensures Number32(Bits32(n)) == n
  {
    Bits16Back(n % 0x1_0000);
    Bits16Back(n / 0x1_0000);
    assert Bits32(n)[..2] == Bits16(n % 0x1_0000) && Bits32(n)[2..] == Bits16(n / 0x1_0000);
  }

  lemma Number16Back(s: bytes)
    requires |s| == 2
    ensures Number16(s) < 0x1_0000 && Bits16(Number16(s)) == s
  {
  }

  lemma Number32Back(s: bytes)
    requires |s| == 4
    ensures Number32(s) < 0x1_0000_0000 && Bits32(Number32(s)) == s
  {
    Number16Back(s[..2]);
    Number16Back(s[2..]);
    var low, high := Number16(s[..2]), Number16(s[2..]);
    assert Number32(s) % 0x1_0000 == low && Number32(s) / 0x1_0000 == high;
  }

  /** The number that four bytes stand for, as digits to base 256 with the lowest first. */
  function Value4(s: bytes, at: nat): nat
    requires at + 4 <= |s|
  {
    var a: nat, b: nat, c: nat, d: nat := s[at], s[at + 1], s[at + 2], s[at + 3];
    a + 256 * b + 65536 * c + 16777216 * d
  }

  function Value2(s: bytes, at: nat): nat
    requires at + 2 <= |s|
  {
    var a: nat, b: nat := s[at], s[at + 1];
    a + 256 * b
  }

  lemma LittleEndian(n: nat)
    requires n < 0x1_0000_0000
    ensures Value4(Bits32(n), 0) == n
    ensures n < 0x1_0000 ==> Value2(Bits16(n), 0) == n
  {
    Bits32Back(n);
  }

  // ---------- encoding ----------

  function Opcode(m: Message): nat {
    match m
    case DhtType(_) => 1
    case Profile(_, _, _, _) => 2
    case Start(_, _, _, _) => 3
    case Report(_, _) => 4
    case Finish => 5
  }

  function Body(m: Message): bytes {
    match m
    case DhtType(kind) => kind
    case Profile(join, leave, put, get) =>
      Bits32(|join|) + Bits32(|leave|) + Bits32(|put|) + Bits32(|get|) + join + leave + put + get
    case Start(duration, host, entry, self) =>
      Bits32(duration) + Bits16(entry) + Bits16(self) + host
    case Report(kind, value) => kind + [SPACE] + value
    case Finish => []
  }

  /** Every number fits its field, and the type of a report holds no space. */
  ghost predicate Sendable(m: Message) {
    && |Body(m)| < 0x1_0000_0000
    && match m
       case Profile(join, leave, put, get) =>
         |join| < 0x8000_0000 && |leave| < 0x8000_0000 && |put| < 0x8000_0000 && |get| < 0x8000_0000
       case Start(duration, _, entry, self) =>
         duration < 0x1_0000_0000 && entry < 0x1_0000 && self < 0x1_0000
       case Report(kind, _) => SPACE !in kind
       case _ => true
  }

  function Header(opcode: nat, bodySize: nat): bytes {
    Bits32(opcode) + Bits32(bodySize)
  }

  function Encode(m: Message): bytes {
    Header(Opcode(m), |Body(m)|) + Body(m)
  }

  lemma ValueHere(n: nat, before: bytes, after: bytes)
    requires n < 0x1_0000_0000
    ensures var s := before + Bits32(n) + after;
            |before| + 4 <= |s| && Value4(s, |before|) == n
    ensures n < 0x1_0000 ==> var s := before + Bits16(n) + after; |before| + 2 <= |s| && Value2(s, |before|) == n
  {
    LittleEndian(n);
    hide Bits16, Bits32;
    var s, t := before + Bits32(n) + after, before + Bits16(n) + after;
    assert forall k :: 0 <= k < 4 ==> s[|before| + k] == Bits32(n)[k];
    assert forall k :: 0 <= k < 2 ==> t[|before| + k] == Bits16(n)[k];
  }

  /** Every message begins with its opcode and the size of what follows. */
  lemma WireHeader(m: Message)
    requires |Body(m)| < 0x1_0000_0000
    ensures var e := Encode(m);
            && |e| == 8 + |Body(m)| && Value4(e, 4) == |Body(m)|
            && Value4(e, 0) == match m
                               case DhtType(_) => 1
                               case Profile(_, _, _, _) => 2
                               case Start(_, _, _, _) => 3
                               case Report(_, _) => 4
                               case Finish => 5
  {
    var opcode, body := Opcode(m), Body(m);
    assert Encode(m) == [] + Bits32(opcode) + (Bits32(|body|) + body);
    assert Encode(m) == Bits32(opcode) + Bits32(|body|) + body;
    hide Bits32, Body, Encode;
    ValueHere(opcode, [], Bits32(|body|) + body);
    ValueHere(|body|, Bits32(opcode), body);
  }

  /** A start message: the duration, the two offsets, and the host up to the end. */
  lemma WireStart(m: Message)
    requires m.Start? && Sendable(m)
    ensures var b := Body(m);
            && |b| == 8 + |m.entryPointHost| && Value4(b, 0) == m.duration
            && Value2(b, 4) == m.entryPointPortOffset && Value2(b, 6) == m.selfPortOffset
            && b[8..] == m.entryPointHost
  {
    var duration, entry, self := Bits32(m.duration), Bits16(m.entryPointPortOffset), Bits16(m.selfPortOffset);
    assert Body(m) == [] + duration + (entry + self + m.entryPointHost);
    assert Body(m) == duration + entry + (self + m.entryPointHost);
    assert Body(m) == duration + entry + self + m.entryPointHost;
    hide Bits16, Bits32, Body;
    ValueHere(m.duration, [], entry + self + m.entryPointHost);
    ValueHere(m.entryPointPortOffset, duration, self + m.entryPointHost);
    ValueHere(m.selfPortOffset, duration + entry, m.entryPointHost);
  }

  lemma FourSlices(a: bytes, b: bytes, c: bytes, d: bytes, rest: bytes)
    requires |a| == |b| == |c| == |d| == 4
    ensures var s := a + b + c + d + rest;
            |s| >= 16 && s[0..4] == a && s[4..8] == b && s[8..12] == c && s[12..16] == d && s[16..] == rest
  {
  }

  lemma ValueOfSlice(s: bytes, at: nat, n: nat)
    requires n < 0x1_0000_0000 && at + 4 <= |s| && s[at..at + 4] == Bits32(n)
    ensures Value4(s, at) == n
  {
    LittleEndian(n);
    hide Bits32;
    var b := s[at..at + 4];
    assert b[0] == s[at] && b[1] == s[at + 1] && b[2] == s[at + 2] && b[3] == s[at + 3];
  }

  /** A profile message: the four sizes, then the four texts, for join, leave, put and get. */
  lemma WireProfile(m: Message)
    requires m.Profile? && Sendable(m)
    ensures var b := Body(m);
            && |b| >= 16 && Value4(b, 0) == |m.join| && Value4(b, 4) == |m.leave|
            && Value4(b, 8) == |m.put| && Value4(b, 12) == |m.get|
            && b[16..] == m.join + m.leave + m.put + m.get
  {
    var texts := m.join + m.leave + m.put + m.get;
    ProfileBody(m, Bits32(|m.join|), Bits32(|m.leave|), Bits32(|m.put|), Bits32(|m.get|));
    hide Bits32, Body;
    FourSlices(Bits32(|m.join|), Bits32(|m.leave|), Bits32(|m.put|), Bits32(|m.get|), texts);
    Regrouped(Bits32(|m.join|) + Bits32(|m.leave|) + Bits32(|m.put|) + Bits32(|m.get|), m);
    ValueOfSlice(Body(m), 0, |m.join|);
    ValueOfSlice(Body(m), 4, |m.leave|);
    ValueOfSlice(Body(m), 8, |m.put|);
    ValueOfSlice(Body(m), 12, |m.get|);
  }

  lemma Regrouped(sizes: bytes, m: Message)
    requires m.Profile?
    ensures sizes + m.join + m.leave + m.put + m.get == sizes + (m.join + m.leave + m.put + m.get)
  {
  }

  /** The bodies of the other messages: the type alone, a type, a space and a value, or nothing. */
  lemma WireTexts(kind: bytes, value: bytes)
    ensures Body(DhtType(kind)) == kind && Body(Report(kind, value)) == kind + [32] + value && Body(Finish) == []
  {
  }

  // ---------- decoding ----------

  function Find(s: bytes, b: byte): (i: nat)
    ensures i <= |s| && (i < |s| ==> s[i] == b) && b !in s[..i]
  {
    if s == [] || s[0] == b then 0
    else
      var i := Find(s[1..], b);
      assert s[..i + 1] == [s[0]] + s[1..][..i];
      i + 1
  }

  function DecodeProfile(bodySize: nat, body: bytes): Decoded {
    if |body| < SIZES_SIZE then Fail
    else
      var join, leave := Signed(Number32(body[0..4])), Signed(Number32(body[4..8]));
      var put, get := Signed(Number32(body[8..12])), Signed(Number32(body[12..16]));
      if join < 0 || leave < 0 || put < 0 || get < 0 then Fail
      else
        var a := SIZES_SIZE + join;
        var b, c := a + leave, a + leave + put;
        var end := c + get;
        if end != bodySize || end > |body| then Fail
        else Ok(Profile(body[SIZES_SIZE..a], body[a..b], body[b..c], body[c..end]))
  }

  function DecodeStart(bodySize: nat, body: bytes): Decoded
    requires bodySize <= |body|
  {
    if bodySize < 8 then Fail
    else Ok(Start(Number32(body[0..4]), body[8..bodySize], Number16(body[4..6]), Number16(body[6..8])))
  }

  function DecodeReport(bodySize: nat, body: bytes): Decoded {
    var i := Find(body, SPACE);
    if i == |body| || bodySize != |body| then Fail else Ok(Report(body[..i], body[i + 1..]))
  }

  /** Message::fromBits. The body buffer may be longer than the body when it was left over from
      an earlier message. Reading outside it, a failed assert and exit() are all Fail. */
  function FromBits(opcode: int, bodySize: nat, body: bytes): Decoded
    requires bodySize <= |body|
  {
    if opcode == 1 then Ok(DhtType(body[..bodySize]))
    else if opcode == 2 then DecodeProfile(bodySize, body)
    else if opcode == 3 then DecodeStart(bodySize, body)
    else if opcode == 4 then DecodeReport(bodySize, body)
    else if opcode == 5 then (if bodySize == 0 then Ok(Finish) else Fail)
    else Fail
  }

  // ---------- round trips ----------

  lemma FindFirst(s: bytes, b: byte, t: bytes)
    requires b !in s
    ensures Find(s + [b] + t, b) == |s|
  {
    var u := s + [b] + t;
    var i := Find(u, b);
    assert forall k :: 0 <= k < |s| ==> u[k] == s[k];
    assert u[|s|] == b;
    assert forall k :: 0 <= k < i ==> u[..i][k] == u[k];
  }

  function Sizes(m: Message): bytes
    requires m.Profile?
  {
    Bits32(|m.join|) + Bits32(|m.leave|) + Bits32(|m.put|) + Bits32(|m.get|)
  }

  lemma SizesBack(m: Message, rest: bytes)
    requires m.Profile? && Sendable(m)
    ensures var body := Sizes(m) + rest;
            && Signed(Number32(body[0..4])) == |m.join| && Signed(Number32(body[4..8])) == |m.leave|
            && Signed(Number32(body[8..12])) == |m.put| && Signed(Number32(body[12..16])) == |m.get|
  {
    var body := Sizes(m) + rest;
    assert body[0..4] == Bits32(|m.join|) && body[4..8] == Bits32(|m.leave|);
    assert body[8..12] == Bits32(|m.put|) && body[12..16] == Bits32(|m.get|);
    Bits32Back(|m.join|);
    Bits32Back(|m.leave|);
    Bits32Back(|m.put|);
    Bits32Back(|m.get|);
  }

  lemma PartsBack(sizes: bytes, m: Message)
    requires m.Profile? && |sizes| == SIZES_SIZE
    ensures var body := sizes + m.join + m.leave + m.put + m.get;
            var a := SIZES_SIZE + |m.join|;
            var b, c := a + |m.leave|, a + |m.leave| + |m.put|;
            && |body| == c + |m.get|
            && body[SIZES_SIZE..a] == m.join && body[a..b] == m.leave
            && body[b..c] == m.put && body[c..|body|] == m.get
  {
  }

  lemma ProfileDecoded(m: Message, body: bytes)
    requires m.Profile? && |body| == SIZES_SIZE + |m.join| + |m.leave| + |m.put| + |m.get|
    requires Signed(Number32(body[0..4])) == |m.join| && Signed(Number32(body[4..8])) == |m.leave|
    requires Signed(Number32(body[8..12])) == |m.put| && Signed(Number32(body[12..16])) == |m.get|
    requires var a := SIZES_SIZE + |m.join|;
             var b, c := a + |m.leave|, a + |m.leave| + |m.put|;
             && body[SIZES_SIZE..a] == m.join && body[a..b] == m.leave
             && body[b..c] == m.put && body[c..|body|] == m.get
    ensures DecodeProfile(|body|, body) == Ok(m)
  {
    hide Number32, Signed;
  }

  lemma ProfileBack(m: Message)
    requires m.Profile? && Sendable(m)
    ensures DecodeProfile(|Body(m)|, Body(m)) == Ok(m)
  {
    hide Bits32, Number32, Signed, DecodeProfile;
    var rest := m.join + m.leave + m.put + m.get;
    assert Body(m) == Sizes(m) + rest == Sizes(m) + m.join + m.leave + m.put + m.get;
    assert |Sizes(m)| == SIZES_SIZE;
    hide Sizes, Body;
    SizesBack(m, rest);
    hide Sendable;
    PartsBack(Sizes(m), m);
    ProfileDecoded(m, Body(m));
  }

  lemma StartBack(m: Message)
    requires m.Start? && Sendable(m)
    ensures DecodeStart(|Body(m)|, Body(m)) == Ok(m)
  {
    var body := Body(m);
    assert body[0..4] == Bits32(m.duration) && body[4..6] == Bits16(m.entryPointPortOffset);
    assert body[6..8] == Bits16(m.selfPortOffset) && body[8..|body|] == m.entryPointHost;
    Bits32Back(m.duration);
    Bits16Back(m.entryPointPortOffset);
    Bits16Back(m.selfPortOffset);
  }

  lemma ReportBack(m: Message)
    requires m.Report? && Sendable(m)
    ensures DecodeReport(|Body(m)|, Body(m)) == Ok(m)
  {
    FindFirst(m.kind, SPACE, m.value);
    var body := Body(m);
    assert body[..|m.kind|] == m.kind && body[|m.kind| + 1..] == m.value;
  }

  /** Decoding what was encoded gives the message back. For a message without a body the buffer
      is not resized and may hold anything. */
  lemma EncodedDecodes(m: Message, buffer: bytes)
    requires Sendable(m) && (Body(m) != [] ==> buffer == Body(m))
    ensures FromBits(Opcode(m), |Body(m)|, buffer) == Ok(m)
  {
    match m {
      case DhtType(kind) => assert buffer[..|kind|] == kind;
      case Profile(_, _, _, _) => ProfileBack(m);
      case Start(_, _, _, _) => StartBack(m);
      case Report(_, _) => ReportBack(m);
      case Finish =>
    }
  }

  lemma SizeForth(size: bytes)
    requires |size| == 4 && Signed(Number32(size)) >= 0
    ensures Signed(Number32(size)) < 0x8000_0000 && Bits32(Signed(Number32(size))) == size
  {
    Number32Back(size);
  }

  lemma PartsForth(body: bytes, a: nat, b: nat, c: nat)
    requires SIZES_SIZE <= a <= b <= c <= |body|
    ensures body == body[0..4] + body[4..8] + body[8..12] + body[12..16]
                    + body[SIZES_SIZE..a] + body[a..b] + body[b..c] + body[c..|body|]
  {
  }

  // the fields of a decoded profile are the parts of the body that its sizes delimit
  lemma ProfileFields(body: bytes)
    requires DecodeProfile(|body|, body).Ok?
    ensures var m := DecodeProfile(|body|, body).message;
            && m.Profile? && |body| >= SIZES_SIZE
            && |m.join| == Signed(Number32(body[0..4])) && |m.leave| == Signed(Number32(body[4..8]))
            && |m.put| == Signed(Number32(body[8..12])) && |m.get| == Signed(Number32(body[12..16]))
            && body == body[0..4] + body[4..8] + body[8..12] + body[12..16] + m.join + m.leave + m.put + m.get
  {
    hide Number32, Signed;
    var m := DecodeProfile(|body|, body).message;
    var a := SIZES_SIZE + |m.join|;
    PartsForth(body, a, a + |m.leave|, a + |m.leave| + |m.put|);
  }

  lemma ProfileBody(m: Message, join: bytes, leave: bytes, put: bytes, get: bytes)
    requires m.Profile? && join == Bits32(|m.join|) && leave == Bits32(|m.leave|)
    requires put == Bits32(|m.put|) && get == Bits32(|m.get|)
    ensures Body(m) == join + leave + put + get + m.join + m.leave + m.put + m.get
  {
    hide Bits32;
  }

  lemma ProfileBodyForth(body: bytes)
    requires DecodeProfile(|body|, body).Ok?
    ensures |body| >= SIZES_SIZE
    ensures var m := DecodeProfile(|body|, body).message;
            m.Profile? && Body(m) == body
            && |m.join| < 0x8000_0000 && |m.leave| < 0x8000_0000 && |m.put| < 0x8000_0000 && |m.get| < 0x8000_0000
  {
    hide Number32, Bits32, Signed, Body;
    ProfileFields(body);
    var m := DecodeProfile(|body|, body).message;
    hide DecodeProfile;
    SizeForth(body[0..4]);
    SizeForth(body[4..8]);
    SizeForth(body[8..12]);
    SizeForth(body[12..16]);
    ProfileBody(m, body[0..4], body[4..8], body[8..12], body[12..16]);
  }

  lemma ProfileForth(body: bytes)
    requires DecodeProfile(|body|, body).Ok? && |body| < 0x1_0000_0000
    ensures var m := DecodeProfile(|body|, body).message; Sendable(m) && Body(m) == body
  {
    hide DecodeProfile, Body;
    ProfileBodyForth(body);
  }

  lemma StartForth(body: bytes)
    requires DecodeStart(|body|, body).Ok? && |body| < 0x1_0000_0000
    ensures var m := DecodeStart(|body|, body).message; Sendable(m) && Body(m) == body
  {
    Number32Back(body[0..4]);
    Number16Back(body[4..6]);
    Number16Back(body[6..8]);
    assert body == body[0..4] + body[4..6] + body[6..8] + body[8..|body|];
  }

  /** A body decodes exactly when it is the body of a sendable message with that opcode, which is
      then the message read. */
  lemma DecodesIffEncoded(opcode: int, body: bytes, m: Message)
    requires |body| < 0x1_0000_0000
    ensures FromBits(opcode, |body|, body) == Ok(m)
            <==> Sendable(m) && opcode == Opcode(m) && body == Body(m)
  {
    if FromBits(opcode, |body|, body) == Ok(m) {
      if opcode == 2 {
        ProfileForth(body);
      } else if opcode == 3 {
        StartForth(body);
      } else if opcode == 4 {
        assert body == m.kind + [SPACE] + m.value;
      }
    }
    if Sendable(m) && opcode == Opcode(m) && body == Body(m) {
      EncodedDecodes(m, body);
    }
  }

  // ---------- toBits ----------

  method Memcpy(bits: array<byte>, at: nat, source: bytes)
    requires at + |source| <= bits.Length
    modifies bits
    ensures bits[..] == old(bits[..at]) + source + old(bits[at + |source|..])
  {
    for i := 0 to |source|
      invariant bits[..at] == old(bits[..at])
      invariant forall k :: 0 <= k < i ==> bits[at + k] == source[k]
      invariant forall k :: at + i <= k < bits.Length ==> bits[k] == old(bits[k])
    {
      bits[at + i] := source[i];
    }
  }

  // memcpy at a running offset; done is what has been copied so far
  method Append(bits: array<byte>, copied: nat, source: bytes, ghost done: bytes) returns (copied': nat)
    requires copied + |source| <= bits.Length && bits[..copied] == done
    modifies bits
    ensures copied' == copied + |source| && bits[..copied'] == done + source
  {
    Memcpy(bits, copied, source);
    copied' := copied + |source|;
    assert bits[..copied'] == bits[..][..copied'];
  }

  // room for m, with its header in place
  method Begin(m: Message) returns (bits: array<byte>)
    requires Sendable(m)
    ensures fresh(bits) && bits.Length == HEADER_SIZE + |Body(m)|
    ensures bits[..HEADER_SIZE] == Header(Opcode(m), |Body(m)|)
  {
    bits := new byte[HEADER_SIZE + |Body(m)|](_ => 0);
    var copied := Append(bits, 0, Header(Opcode(m), |Body(m)|), []);
  }

  lemma ProfileLayout(m: Message, head: bytes)
    requires m.Profile? && head == Header(Opcode(m), |Body(m)|)
    ensures Encode(m) == head + Sizes(m) + m.join + m.leave + m.put + m.get
    ensures |head| == HEADER_SIZE && |Sizes(m)| == SIZES_SIZE
    ensures |Body(m)| == SIZES_SIZE + |m.join| + |m.leave| + |m.put| + |m.get|
  {
    hide Bits32;
  }

  method ProfileToBits(m: Message) returns (bits: array<byte>)
    requires m.Profile? && Sendable(m)
    ensures fresh(bits) && bits[..] == Encode(m)
  {
    bits := Begin(m);
    ghost var head := Header(Opcode(m), |Body(m)|);
    ProfileLayout(m, head);
    hide Encode, Body, Header, Sizes;
    var copied := Append(bits, HEADER_SIZE, Sizes(m), head);
    copied := Append(bits, copied, m.join, head + Sizes(m));
    copied := Append(bits, copied, m.leave, head + Sizes(m) + m.join);
    copied := Append(bits, copied, m.put, head + Sizes(m) + m.join + m.leave);
    copied := Append(bits, copied, m.get, head + Sizes(m) + m.join + m.leave + m.put);
    assert bits[..copied] == bits[..];
  }

  lemma StartLayout(m: Message, head: bytes)
    requires m.Start? && head == Header(Opcode(m), |Body(m)|)
    ensures Encode(m) == head + Bits32(m.duration) + Bits16(m.entryPointPortOffset) + Bits16(m.selfPortOffset)
                         + m.entryPointHost
    ensures |head| == HEADER_SIZE && |Body(m)| == 8 + |m.entryPointHost|
  {
    hide Bits32, Bits16;
  }

  method StartToBits(m: Message) returns (bits: array<byte>)
    requires m.Start? && Sendable(m)
    ensures fresh(bits) && bits[..] == Encode(m)
  {
    bits := Begin(m);
    ghost var head := Header(Opcode(m), |Body(m)|);
    StartLayout(m, head);
    hide Encode, Body, Header, Bits32, Bits16;
    var duration, entry, self := Bits32(m.duration), Bits16(m.entryPointPortOffset), Bits16(m.selfPortOffset);
    var copied := Append(bits, HEADER_SIZE, duration, head);
    copied := Append(bits, copied, entry, head + duration);
    copied := Append(bits, copied, self, head + duration + entry);
    copied := Append(bits, copied, m.entryPointHost, head + duration + entry + self);
    assert bits[..copied] == bits[..];
  }

  lemma ReportLayout(m: Message, head: bytes)
    requires m.Report? && head == Header(Opcode(m), |Body(m)|)
    ensures Encode(m) == head + m.kind + [SPACE] + m.value
    ensures |head| == HEADER_SIZE && |Body(m)| == |m.kind| + 1 + |m.value|
  {
    hide Bits32, Bits16;
  }

  method ReportToBits(m: Message) returns (bits: array<byte>)
    requires m.Report? && Sendable(m)
    ensures fresh(bits) && bits[..] == Encode(m)
  {
    ghost var head := Header(Opcode(m), |Body(m)|);
    ReportLayout(m, head);
    hide Bits32, Bits16, Encode, Header, Body, Sendable, Opcode;
    bits := Begin(m);
    var copied := Append(bits, HEADER_SIZE, m.kind, head);
    copied := Append(bits, copied, [SPACE], head + m.kind);
    copied := Append(bits, copied, m.value, head + m.kind + [SPACE]);
    assert bits[..copied] == bits[..];
  }

  /** toBits: a buffer of exactly the right size, filled piece by piece. */
  method ToBits(m: Message) returns (bits: array<byte>)
    requires Sendable(m)
    ensures fresh(bits) && bits[..] == Encode(m)
  {
    match m {
      case Profile(_, _, _, _) => bits := ProfileToBits(m);
      case Start(_, _, _, _) => bits := StartToBits(m);
      case Report(_, _) => bits := ReportToBits(m);
      case _ =>
        bits := Begin(m);
        var copied := Append(bits, HEADER_SIZE, Body(m), Header(Opcode(m), |Body(m)|));
        assert bits[..copied] == bits[..];
    }
  }
}
