/** The workload file: its lines are recognised one by one and folded into the profiles and the
    choice of a profile for every node. */
module Workload {
  import opened Options
  import opened WorkloadLines
  import opened Events

  // ---------- recognising a line ----------

  predicate IsDigit(c: char) {
    '0' <= c <= '9'
  }

  predicate IsWordChar(c: char) {
    IsDigit(c) || 'a' <= c <= 'z' || 'A' <= c <= 'Z' || c == '_'
  }

  /** What \d matches. */
  lemma DigitCharacters(c: char)
    ensures IsDigit(c) <==> c in "0123456789"
  {
    if IsDigit(c) {
      assert "0123456789"[c as int - '0' as int] == c;
    }
  }

  lemma LowerCharacters(c: char)
    ensures 'a' <= c <= 'z' <==> c in "abcdefghijklm" || c in "nopqrstuvwxyz"
  {
    var first, second := "abcdefghijklm", "nopqrstuvwxyz";
    if 'a' <= c <= 'm' {
      assert first[c as int - 'a' as int] == c;
    } else if 'n' <= c <= 'z' {
      assert second[c as int - 'n' as int] == c;
    }
  }

  lemma UpperCharacters(c: char)
    ensures 'A' <= c <= 'Z' <==> c in "ABCDEFGHIJKLM" || c in "NOPQRSTUVWXYZ"
  {
    var first, second := "ABCDEFGHIJKLM", "NOPQRSTUVWXYZ";
    if 'A' <= c <= 'M' {
      assert first[c as int - 'A' as int] == c;
    } else if 'N' <= c <= 'Z' {
      assert second[c as int - 'N' as int] == c;
    }
  }

  /** What \w matches. */
  lemma WordCharacters(c: char)
    ensures IsWordChar(c) <==> c in "0123456789" || c == '_' || c in "abcdefghijklm" || c in "nopqrstuvwxyz"
                               || c in "ABCDEFGHIJKLM" || c in "NOPQRSTUVWXYZ"
  {
    hide IsDigit;
    DigitCharacters(c);
    LowerCharacters(c);
    UpperCharacters(c);
  }

  predicate Digits(s: string) {
    s != "" && forall i :: 0 <= i < |s| ==> IsDigit(s[i])
  }

  predicate Word(s: string) {
    s != "" && forall i :: 0 <= i < |s| ==> IsWordChar(s[i])
  }

  function Number(s: string): nat
    requires forall i :: 0 <= i < |s| ==> IsDigit(s[i])
  {
    if s == "" then 0
    else
      assert IsDigit(s[|s| - 1]);
      10 * Number(s[..|s| - 1]) + (s[|s| - 1] as int - '0' as int)
  }

  // None where the conversion throws
  function Unsigned(s: string): Option<nat> {
    if Digits(s) && Number(s) < 0x1_0000_0000 then Some(Number(s)) else None
  }

  function After(line: string, prefix: string): Option<string> {
    if prefix <= line then Some(line[|prefix|..]) else None
  }

  /** The length of the longest run of word characters at the start. */
  function WordLength(s: string): (n: nat)
    ensures n <= |s|
  {
    if s == "" || !IsWordChar(s[0]) then 0 else 1 + WordLength(s[1..])
  }

  datatype Line =
    | Nodes(count: string)
    | Duration(seconds: string)
    | Section(name: string)
    | Part(op: Op, text: string)
    | Default(name: string)
    | Single(id: string, name: string)
    | Ignored

  function Keyword(op: Op): string {
    match op
    case Join => "join "
    case Leave => "leave "
    case Put => "put "
    case Get => "get "
  }

  predicate IsPart(line: string, op: Op) {
    var text := After(line, Keyword(op));
    text.Some? && text.value != "" && IsWordChar(text.value[0])
  }

  /** The regular expressions, in the order in which they are tried. */
  function Classify(line: string): (r: Line)
    ensures r.Part? ==> r.text != ""
  {
    if "#" <= line then Ignored
    else if "nodes " <= line && Digits(line[6..]) then Nodes(line[6..])
    else if "duration " <= line && Digits(line[9..]) then Duration(line[9..])
    else if "profile " <= line && Word(line[8..]) then Section(line[8..])
    else if IsPart(line, Join) then Part(Join, line[5..])
    else if IsPart(line, Leave) then Part(Leave, line[6..])
    else if IsPart(line, Put) then Part(Put, line[4..])
    else if IsPart(line, Get) then Part(Get, line[4..])
    else if "default-profile " <= line && Word(line[16..]) then Default(line[16..])
    else if "node " <= line then ClassifyNode(line[5..])
    else Ignored
  }

  // what follows "node ": two words with a space between them
  function ClassifyNode(rest: string): (r: Line)
    ensures r.Single? || r.Ignored?
  {
    var n := WordLength(rest);
    if n > 0 && n < |rest| && rest[n] == ' ' && Word(rest[n + 1..])
    then Single(rest[..n], rest[n + 1..]) else Ignored
  }

  lemma WordPrefix(word: string, rest: string)
    requires Word(word)
    ensures WordLength(word + " " + rest) == |word|
  {
    if |word| == 1 {
      assert (word + " " + rest)[1..] == " " + rest;
    } else {
      assert (word + " " + rest)[1..] == word[1..] + " " + rest;
      WordPrefix(word[1..], rest);
    }
  }

  lemma {:induction false} WordLengthIs(s: string)
    ensures forall i :: 0 <= i < WordLength(s) ==> IsWordChar(s[i])
  {
    if s != "" && IsWordChar(s[0]) {
      WordLengthIs(s[1..]);
      assert forall i :: 1 <= i < WordLength(s) ==> s[i] == s[1..][i - 1];
    }
  }

  // what follows a keyword
  lemma AfterKeyword(line: string, keyword: string, rest: string)
    ensures line == keyword + rest <==> keyword <= line && line[|keyword|..] == rest
  {
    if keyword <= line {
      assert line == line[..|keyword|] + line[|keyword|..];
    }
  }

  // no two of these begin the same line
  lemma KeywordsDiffer(line: string)
    ensures |line| > 0 && line[0] == '#' ==> !("nodes " <= line) && !("duration " <= line) && !("profile " <= line)
    ensures |line| > 0 && line[0] == '#' ==> !("default-profile " <= line) && !("node " <= line)
    ensures "nodes " <= line ==> line[0] == 'n' && line[4] == 's'
    ensures "node " <= line ==> line[0] == 'n' && line[4] == ' '
    ensures "duration " <= line ==> line[0] == 'd' && line[1] == 'u'
    ensures "default-profile " <= line ==> line[0] == 'd' && line[1] == 'e'
    ensures "profile " <= line ==> line[0] == 'p' && line[1] == 'r'
    ensures "put " <= line ==> line[0] == 'p' && line[1] == 'u'
    ensures "join " <= line ==> line[0] == 'j'
    ensures "leave " <= line ==> line[0] == 'l'
    ensures "get " <= line ==> line[0] == 'g'
    ensures "#" <= line <==> |line| > 0 && line[0] == '#'
  {
  }

  lemma NumbersRecognised(line: string, text: string)
    ensures Classify(line) == Nodes(text) <==> line == "nodes " + text && Digits(text)
    ensures Classify(line) == Duration(text) <==> line == "duration " + text && Digits(text)
  {
    KeywordsDiffer(line);
    AfterKeyword(line, "nodes ", text);
    AfterKeyword(line, "duration ", text);
    hide Digits, Word, ClassifyNode, IsPart;
  }

  lemma NamesRecognised(line: string, text: string)
    ensures Classify(line) == Section(text) <==> line == "profile " + text && Word(text)
    ensures Classify(line) == Default(text) <==> line == "default-profile " + text && Word(text)
  {
    KeywordsDiffer(line);
    AfterKeyword(line, "profile ", text);
    AfterKeyword(line, "default-profile ", text);
    hide Digits, Word, ClassifyNode;
  }

  /** Exactly which lines give a number, a duration, a section or a default profile. */
  lemma HeadersRecognised(line: string, text: string)
    ensures Classify(line) == Nodes(text) <==> line == "nodes " + text && Digits(text)
    ensures Classify(line) == Duration(text) <==> line == "duration " + text && Digits(text)
    ensures Classify(line) == Section(text) <==> line == "profile " + text && Word(text)
    ensures Classify(line) == Default(text) <==> line == "default-profile " + text && Word(text)
  {
    hide Classify, Digits, Word;
    NumbersRecognised(line, text);
    NamesRecognised(line, text);
  }

  /** Exactly which lines give a part of a profile. */
  lemma PartsRecognised(line: string, text: string)
    ensures Classify(line) == Part(Join, text) <==> line == "join " + text && text != "" && IsWordChar(text[0])
    ensures Classify(line) == Part(Leave, text) <==> line == "leave " + text && text != "" && IsWordChar(text[0])
    ensures Classify(line) == Part(Put, text) <==> line == "put " + text && text != "" && IsWordChar(text[0])
    ensures Classify(line) == Part(Get, text) <==> line == "get " + text && text != "" && IsWordChar(text[0])
  {
    KeywordsDiffer(line);
    AfterKeyword(line, "join ", text);
    AfterKeyword(line, "leave ", text);
    AfterKeyword(line, "put ", text);
    AfterKeyword(line, "get ", text);
    hide Digits, Word, ClassifyNode, IsWordChar;
  }

  lemma SingleTaken(id: string, name: string)
    requires Word(id) && Word(name)
    ensures ClassifyNode(id + " " + name) == Single(id, name)
  {
    var rest := id + " " + name;
    WordPrefix(id, name);
    hide Word, WordLength;
    assert rest[..|id|] == id && rest[|id|] == ' ' && rest[|id| + 1..] == name;
  }

  lemma SingleMeans(rest: string, id: string, name: string)
    requires ClassifyNode(rest) == Single(id, name)
    ensures rest == id + " " + name && Word(id) && Word(name)
  {
    WordLengthIs(rest);
    var n := WordLength(rest);
    hide WordLength;
    assert rest == rest[..n] + " " + rest[n + 1..];
  }

  lemma NodeLine(line: string)
    ensures "node " <= line ==> Classify(line) == ClassifyNode(line[5..])
    ensures Classify(line).Single? ==> "node " <= line
  {
    KeywordsDiffer(line);
    hide ClassifyNode, Digits, Word;
  }

  /** Exactly which lines choose the profile of a single node. */
  lemma SingleRecognised(line: string, id: string, name: string)
    ensures Classify(line) == Single(id, name) <==> line == "node " + id + " " + name && Word(id) && Word(name)
  {
    hide Classify, ClassifyNode, Word;
    NodeLine(line);
    AfterKeyword(line, "node ", id + " " + name);
    assert "node " + (id + " " + name) == "node " + id + " " + name;
    if Word(id) && Word(name) {
      SingleTaken(id, name);
    }
    if Classify(line) == Single(id, name) {
      SingleMeans(line[5..], id, name);
    }
  }

  /** n written in the usual way. */
  function Decimal(n: nat): (s: string)
    ensures s != ""
  {
    if n < 10 then [('0' as int + n) as char] else Decimal(n / 10) + [('0' as int + n % 10) as char]
  }

  /** Numbers are read to base ten, and a number is refused exactly when it needs more than 32 bits. */
  lemma {:induction false} NumberReadsBack(n: nat)
    ensures Digits(Decimal(n)) && Number(Decimal(n)) == n
  {
    if n < 10 {
      assert Number("") == 0 && Decimal(n)[..0] == "";
    } else {
      NumberReadsBack(n / 10);
      var s := Decimal(n);
      assert s[..|s| - 1] == Decimal(n / 10);
    }
  }

  lemma UnsignedReadsBack(n: nat)
    ensures Unsigned(Decimal(n)) == if n < 4294967296 then Some(n) else None
  {
    NumberReadsBack(n);
  }

  // ---------- the fold over the lines ----------

  datatype Parts = Parts(join: string, leave: string, put: string, get: string)
  {
    function Of(op: Op): string {
      match op
      case Join => join
      case Leave => leave
      case Put => put
      case Get => get
    }

    function With(op: Op, text: string): (r: Parts)
      ensures r.Of(op) == text && forall other :: other != op ==> r.Of(other) == Of(other)
    {
      match op
      case Join => this.(join := text)
      case Leave => this.(leave := text)
      case Put => this.(put := text)
      case Get => this.(get := text)
    }

    predicate Complete() {
      join != "" && leave != "" && put != "" && get != ""
    }
  }

  const NO_PARTS := Parts("", "", "", "")

  /** The profile being filled in: none yet, one of this file, or one left by an earlier load. */
  datatype Current = Nobody | Named(name: string) | Detached(parts: Parts)

  datatype Config = Config(
    nodes: nat, duration: nat, profiles: map<string, Parts>, nodeProfiles: map<nat, string>, current: Current)

  datatype Result = Accepted(config: Config) | Rejected | Killed

  function Left(c: Config): Current {
    match c.current
    case Named(name) => if name in c.profiles then Detached(c.profiles[name]) else Nobody
    case _ => c.current
  }

  /** loadConfig forgets everything but the current profile, which is static. */
  function Cleared(c: Config, nodes: nat): Config {
    Config(nodes, 0, map[], map[], Left(c))
  }

  function SetPart(c: Config, op: Op, text: string): Result {
    match c.current
    case Nobody => Rejected
    case Detached(parts) =>
      if parts.Of(op) != "" then Killed else Accepted(c.(current := Detached(parts.With(op, text))))
    case Named(name) =>
      if name !in c.profiles then Rejected
      else if c.profiles[name].Of(op) != "" then Killed
      else Accepted(c.(profiles := c.profiles[name := c.profiles[name].With(op, text)]))
  }

  function Everyone(nodes: nat, name: string): (m: map<nat, string>)
    ensures forall i: nat :: i in m <==> i < nodes
    ensures forall i :: i in m ==> m[i] == name
  {
    if nodes == 0 then map[] else Everyone(nodes - 1, name)[nodes - 1 := name]
  }

  /** processConfigLine on a recognised line. */
  function Step(c: Config, line: Line): Result {
    match line
    case Nodes(count) =>
      if c.nodes != 0 then Accepted(c)
      else if Unsigned(count).None? then Killed
      else Accepted(c.(nodes := Unsigned(count).value))
    case Duration(seconds) =>
      if Unsigned(seconds).None? then Killed else Accepted(c.(duration := Unsigned(seconds).value))
    case Section(name) => Accepted(c.(profiles := c.profiles[name := NO_PARTS], current := Named(name)))
    case Part(op, text) => SetPart(c, op, text)
    case Default(name) => Accepted(c.(nodeProfiles := c.nodeProfiles + Everyone(c.nodes, name)))
    case Single(id, name) =>
      if Unsigned(id).None? then Killed
      else Accepted(c.(nodeProfiles := c.nodeProfiles[Unsigned(id).value := name]))
    case Ignored => Accepted(c)
  }

  function Run(start: Config, lines: seq<Line>): Result {
    if lines == [] then Accepted(start)
    else
      match Run(start, lines[..|lines| - 1])
      case Accepted(c) => Step(c, lines[|lines| - 1])
      case Rejected => Rejected
      case Killed => Killed
  }

  predicate AllComplete(c: Config) {
    forall p :: p in c.profiles ==> c.profiles[p].Complete()
  }

  predicate AllChosen(c: Config) {
    forall i :: 0 <= i < c.nodes ==> i in c.nodeProfiles && c.nodeProfiles[i] in c.profiles
  }

  predicate Checked(c: Config) {
    c.nodes != 0 && c.duration != 0 && c.profiles != map[] && AllComplete(c) && AllChosen(c)
  }

  function Lines(pieces: seq<string>): seq<Line> {
    var logical := LogicalFrom(pieces, 0);
    seq(|logical|, i requires 0 <= i < |logical| => Classify(logical[i]))
  }

  function Load(start: Config, pieces: seq<string>): Result {
    match Run(start, Lines(pieces))
    case Accepted(c) => if Checked(c) then Accepted(c) else Rejected
    case r => r
  }

  // ---------- what the fold means ----------

  /** A number of nodes is settled by the caller, or by the first line that gives one. */
  ghost predicate Settled(start: nat, lines: seq<Line>, nodes: nat) {
    if start != 0 then nodes == start
    else if nodes == 0 then forall j :: 0 <= j < |lines| && lines[j].Nodes? ==> Unsigned(lines[j].count) == Some(0)
    else exists j :: FirstCount(lines, j) && Unsigned(lines[j].count) == Some(nodes)
  }

  ghost predicate FirstCount(lines: seq<Line>, j: int) {
    && 0 <= j < |lines| && lines[j].Nodes? && Unsigned(lines[j].count) != Some(0)
    && forall i :: 0 <= i < j && lines[i].Nodes? ==> Unsigned(lines[i].count) == Some(0)
  }

  /** The number of nodes after some lines, read off the nodes lines alone. */
  function NodesGiven(start: nat, lines: seq<Line>): nat {
    if lines == [] then start
    else
      var before, last := NodesGiven(start, lines[..|lines| - 1]), lines[|lines| - 1];
      if before != 0 || !last.Nodes? || Unsigned(last.count).None? then before else Unsigned(last.count).value
  }

  ghost predicate NodesReadable(start: nat, lines: seq<Line>) {
    start != 0 || forall j :: FirstCount(lines, j) ==> Unsigned(lines[j].count).Some?
  }

  /** That number is the caller's or the one of the first line that gives one. */
  lemma {:induction false} NodesGivenSettled(start: nat, lines: seq<Line>)
    requires NodesReadable(start, lines)
    ensures Settled(start, lines, NodesGiven(start, lines))
  {
    if lines != [] {
      hide Unsigned;
      var n := |lines| - 1;
      forall j ensures FirstCount(lines[..n], j) ==> FirstCount(lines, j) {
      }
      NodesGivenSettled(start, lines[..n]);
      var before := NodesGiven(start, lines[..n]);
      if start == 0 && before != 0 {
        var j :| FirstCount(lines[..n], j) && Unsigned(lines[..n][j].count) == Some(before);
        assert FirstCount(lines, j);
      } else if start == 0 && lines[n].Nodes? && Unsigned(lines[n].count) != Some(0) {
        assert forall i :: 0 <= i < n ==> lines[..n][i] == lines[i];
        assert FirstCount(lines, n);
      }
    }
  }

  lemma NodesMeaning(start: Config, lines: seq<Line>)
    requires Run(start, lines).Accepted?
    ensures Run(start, lines).config.nodes == NodesGiven(start.nodes, lines)
    ensures Settled(start.nodes, lines, NodesGiven(start.nodes, lines))
  {
    NodesAreGiven(start, lines);
    AcceptedReadable(start, lines);
    NodesGivenSettled(start.nodes, lines);
  }

  lemma {:induction false} NodesAreGiven(start: Config, lines: seq<Line>)
    requires Run(start, lines).Accepted?
    ensures Run(start, lines).config.nodes == NodesGiven(start.nodes, lines)
  {
    if lines != [] {
      hide Unsigned;
      NodesAreGiven(start, lines[..|lines| - 1]);
    }
  }

  lemma {:induction false} AcceptedReadable(start: Config, lines: seq<Line>)
    requires Run(start, lines).Accepted?
    ensures NodesReadable(start.nodes, lines)
  {
    if lines != [] && start.nodes == 0 {
      hide Unsigned;
      var n := |lines| - 1;
      AcceptedReadable(start, lines[..n]);
      NodesAreGiven(start, lines[..n]);
      NodesGivenSettled(0, lines[..n]);
      forall j | FirstCount(lines, j) ensures Unsigned(lines[j].count).Some? {
        if j < n {
          assert FirstCount(lines[..n], j);
        } else {
          NoneBefore(lines, NodesGiven(0, lines[..n]));
        }
      }
    }
  }

  lemma NoneBefore(lines: seq<Line>, nodes: nat)
    requires lines != [] && FirstCount(lines, |lines| - 1) && Settled(0, lines[..|lines| - 1], nodes)
    ensures nodes == 0
  {
    hide Unsigned;
  }

  ghost predicate FirstNodes(lines: seq<Line>, f: nat) {
    f < |lines| && lines[f].Nodes? && forall i :: 0 <= i < f ==> !lines[i].Nodes?
  }

  /** When the caller gives no number, the first nodes line decides exactly when its number is not
      0 or no later one is anything else. */
  lemma FirstNodesLineDecidesIff(start: Config, lines: seq<Line>, f: nat)
    requires start.nodes == 0 && Run(start, lines).Accepted? && FirstNodes(lines, f)
    ensures Unsigned(lines[f].count).Some?
    ensures Run(start, lines).config.nodes == Unsigned(lines[f].count).value
       <==> Unsigned(lines[f].count).value != 0
            || forall j :: f < j < |lines| && lines[j].Nodes? ==> Unsigned(lines[j].count) == Some(0)
  {
    NodesMeaning(start, lines);
    hide Run, Unsigned;
    if NodesGiven(0, lines) != 0 {
      var j :| FirstCount(lines, j) && Unsigned(lines[j].count) == Some(NodesGiven(0, lines));
      assert f <= j;
    }
  }

  lemma NodesLine(count: string)
    requires Digits(count)
    ensures Classify("nodes " + count) == Nodes(count)
  {
    var line := "nodes " + count;
    assert line[0] == 'n' && line[..6] == "nodes " && line[6..] == count;
  }

  /** In a file with the lines "nodes 0" and "nodes 5" the second one decides. */
  lemma SecondNodesLine(start: Config)
    requires start.nodes == 0
    ensures var lines := Lines(["nodes 0", "nodes 5"]);
            && FirstNodes(lines, 0) && Unsigned(lines[0].count) == Some(0)
            && Run(start, lines) == Accepted(start.(nodes := 5))
  {
    var pieces, lines := ["nodes 0", "nodes 5"], [Nodes("0"), Nodes("5")];
    NothingJoined(pieces, 0);
    NodesLine("0");
    NodesLine("5");
    assert pieces[0] == "nodes " + "0" && pieces[1] == "nodes " + "5";
    assert Classify(pieces[0]) == Nodes("0") && Classify(pieces[1]) == Nodes("5");
    assert Lines(pieces) == lines;
    assert Number("") == 0 && "0"[..0] == "" && "5"[..0] == "";
    assert Unsigned("0") == Some(0) && Unsigned("5") == Some(5);
    assert lines[..1] == [Nodes("0")] && lines[..1][..0] == [];
    assert Run(start, []) == Accepted(start);
    assert Run(start, lines[..1]) == Accepted(start);
  }

  /** Line j chooses the profile of node i: by its number, or for all the nodes known so far. */
  ghost predicate Covers(start: Config, lines: seq<Line>, j: nat, i: nat) {
    && j < |lines|
    && match lines[j]
       case Single(id, _) => Unsigned(id) == Some(i)
       case Default(_) => i < NodesGiven(start.nodes, lines[..j])
       case _ => false
  }

  ghost predicate LastCovers(start: Config, lines: seq<Line>, j: nat, i: nat) {
    Covers(start, lines, j, i) && forall k: nat :: Covers(start, lines, k, i) ==> k <= j
  }

  lemma CoversPrefix(start: Config, lines: seq<Line>, n: nat, j: nat, i: nat)
    requires j < n <= |lines|
    ensures Covers(start, lines[..n], j, i) <==> Covers(start, lines, j, i)
  {
    assert lines[..n][..j] == lines[..j];
  }

  lemma LastCoversMore(start: Config, lines: seq<Line>, j: nat, i: nat)
    requires lines != []
    ensures var n := |lines| - 1;
            LastCovers(start, lines, j, i)
            <==> if Covers(start, lines, n, i) then j == n else LastCovers(start, lines[..n], j, i)
  {
    hide NodesGiven;
    var n := |lines| - 1;
    forall k: nat | k < n ensures Covers(start, lines[..n], k, i) <==> Covers(start, lines, k, i) {
      CoversPrefix(start, lines, n, k, i);
    }
    assert !Covers(start, lines[..n], n, i);
    if Covers(start, lines, n, i) {
      assert forall k: nat :: Covers(start, lines, k, i) ==> k <= n;
    }
  }

  lemma StepChooses(start: Config, lines: seq<Line>, i: nat)
    requires lines != [] && Run(start, lines).Accepted?
    ensures var n := |lines| - 1;
            var before, after := Run(start, lines[..n]).config, Run(start, lines).config;
            if Covers(start, lines, n, i) then i in after.nodeProfiles && after.nodeProfiles[i] == lines[n].name
            else (i in after.nodeProfiles <==> i in before.nodeProfiles)
                 && (i in before.nodeProfiles ==> after.nodeProfiles[i] == before.nodeProfiles[i])
  {
    NodesAreGiven(start, lines[..|lines| - 1]);
  }

  /** A node has a profile name exactly when some line covered it, and then the last one's. */
  lemma {:induction false} ChoiceMeaning(start: Config, lines: seq<Line>, i: nat)
    requires start.nodeProfiles == map[] && Run(start, lines).Accepted?
    ensures var chosen := Run(start, lines).config.nodeProfiles;
            (i in chosen <==> exists j: nat :: LastCovers(start, lines, j, i))
            && (forall j: nat :: LastCovers(start, lines, j, i) ==> chosen[i] == lines[j].name)
  {
    if lines != [] {
      var n := |lines| - 1;
      ChoiceMeaning(start, lines[..n], i);
      StepChooses(start, lines, i);
      hide Run, LastCovers;
      forall j: nat ensures LastCovers(start, lines, j, i)
          <==> if Covers(start, lines, n, i) then j == n else LastCovers(start, lines[..n], j, i) {
        LastCoversMore(start, lines, j, i);
      }
      if Covers(start, lines, n, i) {
        assert LastCovers(start, lines, n, i);
      }
    }
  }

  /** The section a next line belongs to, by the position of its header; -1 before the first. */
  function Opening(lines: seq<Line>): (j: int)
    ensures -1 <= j < |lines|
    ensures j >= 0 ==> lines[j].Section?
  {
    if lines == [] then -1
    else if lines[|lines| - 1].Section? then |lines| - 1
    else Opening(lines[..|lines| - 1])
  }

  /** The last section that begins profile p; an earlier one of that name is forgotten. */
  function LastSection(lines: seq<Line>, p: string): (j: int)
    ensures -1 <= j < |lines|
    ensures j >= 0 ==> lines[j] == Section(p)
  {
    if lines == [] then -1
    else if lines[|lines| - 1] == Section(p) then |lines| - 1
    else LastSection(lines[..|lines| - 1], p)
  }

  /** Line k gives the part op of the section that j heads. */
  ghost predicate Gives(lines: seq<Line>, k: nat, j: int, op: Op, text: string) {
    k < |lines| && lines[k] == Part(op, text) && Opening(lines[..k]) == j
  }

  ghost predicate Given(lines: seq<Line>, j: int, op: Op, text: string) {
    exists k: nat :: Gives(lines, k, j, op, text)
  }

  ghost predicate PartsMean(lines: seq<Line>, j: int, parts: Parts) {
    forall op, text: string :: text != "" ==> (parts.Of(op) == text <==> Given(lines, j, op, text))
  }

  /** The four parts are those given under their own names in the section that j heads. */
  ghost predicate PartsNamed(lines: seq<Line>, j: int, parts: Parts) {
    && (forall text: string :: text != "" ==> (parts.join == text <==> Given(lines, j, Join, text)))
    && (forall text: string :: text != "" ==> (parts.leave == text <==> Given(lines, j, Leave, text)))
    && (forall text: string :: text != "" ==> (parts.put == text <==> Given(lines, j, Put, text)))
    && (forall text: string :: text != "" ==> (parts.get == text <==> Given(lines, j, Get, text)))
  }

  lemma MeanNamed(lines: seq<Line>, j: int, parts: Parts)
    requires PartsMean(lines, j, parts)
    ensures PartsNamed(lines, j, parts)
  {
    hide Given;
    assert parts.Of(Join) == parts.join && parts.Of(Leave) == parts.leave;
    assert parts.Of(Put) == parts.put && parts.Of(Get) == parts.get;
  }

  ghost predicate CurrentMeans(lines: seq<Line>, c: Config) {
    && (c.current.Named? <==> Opening(lines) >= 0)
    && (c.current.Named? ==> lines[Opening(lines)] == Section(c.current.name))
    && (c.current.Named? ==> Opening(lines) == LastSection(lines, c.current.name))
  }

  ghost predicate ProfilesMean(lines: seq<Line>, c: Config) {
    && (forall p :: p in c.profiles <==> LastSection(lines, p) >= 0)
    && (forall p :: p in c.profiles ==> PartsMean(lines, LastSection(lines, p), c.profiles[p]))
  }

  /** No part of the text is empty, as Classify ensures. */
  ghost predicate PartsNonempty(lines: seq<Line>) {
    forall k :: 0 <= k < |lines| && lines[k].Part? ==> lines[k].text != ""
  }

  lemma GivenMore(lines: seq<Line>, j: int, op: Op, text: string)
    requires lines != []
    ensures var n := |lines| - 1;
            Given(lines, j, op, text)
            <==> Given(lines[..n], j, op, text) || (lines[n] == Part(op, text) && Opening(lines[..n]) == j)
  {
    hide Opening;
    var n := |lines| - 1;
    forall k: nat | k < n ensures Gives(lines, k, j, op, text) <==> Gives(lines[..n], k, j, op, text) {
      assert lines[..n][..k] == lines[..k];
    }
    if lines[n] == Part(op, text) && Opening(lines[..n]) == j {
      assert Gives(lines, n, j, op, text);
    }
    if Given(lines[..n], j, op, text) {
      var k: nat :| Gives(lines[..n], k, j, op, text);
      assert Gives(lines, k, j, op, text);
    }
  }

  lemma NotYetGiven(lines: seq<Line>, j: int, op: Op, text: string)
    requires j >= |lines| - 1
    ensures !Given(lines, j, op, text)
  {
  }

  lemma PartsMeanMore(lines: seq<Line>, j: int, parts: Parts)
    requires lines != [] && PartsMean(lines[..|lines| - 1], j, parts)
    requires !lines[|lines| - 1].Part? || Opening(lines[..|lines| - 1]) != j
    ensures PartsMean(lines, j, parts)
  {
    hide Given, Opening;
    forall op, text: string | text != "" ensures parts.Of(op) == text <==> Given(lines, j, op, text) {
      GivenMore(lines, j, op, text);
    }
  }

  lemma PartsMeanSet(lines: seq<Line>, j: int, parts: Parts, op: Op, text: string)
    requires lines != [] && PartsMean(lines[..|lines| - 1], j, parts)
    requires lines[|lines| - 1] == Part(op, text) && text != "" && Opening(lines[..|lines| - 1]) == j
    requires parts.Of(op) == ""
    ensures PartsMean(lines, j, parts.With(op, text))
  {
    hide Given, Opening;
    forall o, t: string | t != "" ensures parts.With(op, text).Of(o) == t <==> Given(lines, j, o, t) {
      GivenMore(lines, j, o, t);
    }
  }

  lemma {:induction false} CurrentMeaning(start: Config, lines: seq<Line>)
    requires !start.current.Named? && Run(start, lines).Accepted?
    ensures CurrentMeans(lines, Run(start, lines).config)
  {
    if lines != [] {
      CurrentMeaning(start, lines[..|lines| - 1]);
    }
  }

  /** A profile exists exactly when some section bears its name, and its parts are those given
      in the last such section, each by the one line that gives it there. */
  lemma {:induction false} ProfileMeaning(start: Config, lines: seq<Line>)
    requires start.profiles == map[] && !start.current.Named? && PartsNonempty(lines)
    requires Run(start, lines).Accepted?
    ensures ProfilesMean(lines, Run(start, lines).config)
  {
    if lines != [] {
      var n := |lines| - 1;
      ProfileMeaning(start, lines[..n]);
      CurrentMeaning(start, lines[..n]);
      hide PartsMean, Run;
      ProfilesMeanMore(start, lines);
    }
  }

  lemma StepKeepsProfiles(lines: seq<Line>, before: Config, after: Config)
    requires lines != [] && Step(before, lines[|lines| - 1]) == Accepted(after)
    requires CurrentMeans(lines[..|lines| - 1], before) && ProfilesMean(lines[..|lines| - 1], before)
    ensures forall p :: p in after.profiles <==> LastSection(lines, p) >= 0
  {
    hide PartsMean, Opening;
  }

  lemma StepKeepsParts(lines: seq<Line>, before: Config, after: Config, p: string)
    requires PartsNonempty(lines)
    requires lines != [] && Step(before, lines[|lines| - 1]) == Accepted(after)
    requires CurrentMeans(lines[..|lines| - 1], before) && ProfilesMean(lines[..|lines| - 1], before)
    requires p in after.profiles
    ensures PartsMean(lines, LastSection(lines, p), after.profiles[p])
  {
    hide PartsMean, Opening;
    var n := |lines| - 1;
    if lines[n] == Section(p) {
      NewSection(lines);
    } else if lines[n].Part? && before.current == Named(p) {
      PartsMeanSet(lines, LastSection(lines, p), before.profiles[p], lines[n].op, lines[n].text);
    } else {
      assert after.profiles[p] == before.profiles[p];
      assert LastSection(lines, p) == LastSection(lines[..n], p);
      assert lines[n].Part? && before.current.Named? ==> Opening(lines[..n]) != LastSection(lines, p);
      assert lines[n].Part? && !before.current.Named? ==> Opening(lines[..n]) != LastSection(lines, p);
      PartsMeanMore(lines, LastSection(lines, p), before.profiles[p]);
    }
  }

  lemma ProfilesMeanMore(start: Config, lines: seq<Line>)
    requires lines != [] && PartsNonempty(lines) && Run(start, lines).Accepted?
    requires ProfilesMean(lines[..|lines| - 1], Run(start, lines[..|lines| - 1]).config)
    requires CurrentMeans(lines[..|lines| - 1], Run(start, lines[..|lines| - 1]).config)
    ensures ProfilesMean(lines, Run(start, lines).config)
  {
    hide PartsMean, Opening, Step, LastSection, CurrentMeans;
    var before, after := Run(start, lines[..|lines| - 1]).config, Run(start, lines).config;
    StepKeepsProfiles(lines, before, after);
    forall p | p in after.profiles ensures PartsMean(lines, LastSection(lines, p), after.profiles[p]) {
      StepKeepsParts(lines, before, after, p);
    }
  }

  lemma NewSection(lines: seq<Line>)
    requires lines != []
    ensures PartsMean(lines, |lines| - 1, NO_PARTS)
  {
    var n := |lines| - 1;
    forall op, text: string | text != "" ensures NO_PARTS.Of(op) == text <==> Given(lines, n, op, text) {
      NotYetGiven(lines, n, op, text);
    }
  }

  /** The duration is that of the last line that gives one. */
  ghost predicate LastDuration(lines: seq<Line>, j: int) {
    0 <= j < |lines| && lines[j].Duration? && forall k :: j < k < |lines| ==> !lines[k].Duration?
  }

  lemma {:induction false} DurationMeaning(start: Config, lines: seq<Line>)
    requires start.duration == 0 && Run(start, lines).Accepted?
    ensures var d := Run(start, lines).config.duration;
            (forall j :: LastDuration(lines, j) ==> Unsigned(lines[j].seconds) == Some(d))
            && (d != 0 ==> exists j :: LastDuration(lines, j))
  {
    if lines != [] {
      var n := |lines| - 1;
      DurationMeaning(start, lines[..n]);
      if lines[n].Duration? {
        assert LastDuration(lines, n);
      } else {
        assert forall j :: LastDuration(lines, j) <==> LastDuration(lines[..n], j);
      }
    }
  }

  // ---------- which files are accepted ----------

  ghost predicate CountedBefore(lines: seq<Line>, k: int) {
    exists j :: 0 <= j < k <= |lines| && lines[j].Nodes? && Unsigned(lines[j].count) != Some(0)
  }

  ghost predicate SamePart(lines: seq<Line>, j: int, k: int) {
    && 0 <= j < |lines| && 0 <= k < |lines| && lines[j].Part? && lines[k].Part? && lines[j].op == lines[k].op
    && Opening(lines[..j]) == Opening(lines[..k])
  }

  ghost predicate Repeated(lines: seq<Line>, k: int) {
    exists j :: 0 <= j < k && SamePart(lines, j, k)
  }

  /** A line that can be taken where it stands: its number can be read where it is needed, and a
      part belongs to a section that does not have it yet. */
  ghost predicate Fine(start: Config, lines: seq<Line>, k: int)
    requires 0 <= k < |lines|
  {
    match lines[k]
    case Nodes(count) => start.nodes != 0 || CountedBefore(lines, k) || Unsigned(count).Some?
    case Duration(seconds) => Unsigned(seconds).Some?
    case Single(id, _) => Unsigned(id).Some?
    case Part(_, _) => Opening(lines[..k]) >= 0 && !Repeated(lines, k)
    case _ => true
  }

  lemma FinePrefix(start: Config, lines: seq<Line>, n: int, k: int)
    requires 0 <= k < n <= |lines|
    ensures Fine(start, lines[..n], k) <==> Fine(start, lines, k)
  {
    hide Opening;
    assert forall j :: 0 <= j <= k ==> lines[..n][..j] == lines[..j];
    assert forall j :: 0 <= j < k ==> (SamePart(lines[..n], j, k) <==> SamePart(lines, j, k));
    assert CountedBefore(lines[..n], k) <==> CountedBefore(lines, k);
  }

  lemma PartFree(start: Config, lines: seq<Line>, c: Config)
    requires lines != [] && lines[|lines| - 1].Part? && PartsNonempty(lines)
    requires ProfilesMean(lines[..|lines| - 1], c) && CurrentMeans(lines[..|lines| - 1], c)
    requires c.current.Named?
    ensures c.current.name in c.profiles
    ensures c.profiles[c.current.name].Of(lines[|lines| - 1].op) == "" <==> !Repeated(lines, |lines| - 1)
  {
    hide Opening, LastSection;
    var n := |lines| - 1;
    var op, parts, head := lines[n].op, c.profiles[c.current.name], Opening(lines[..n]);
    assert forall j :: 0 <= j < n ==> lines[..n][..j] == lines[..j];
    if parts.Of(op) != "" {
      assert Given(lines[..n], head, op, parts.Of(op));
      var j: nat :| Gives(lines[..n], j, head, op, parts.Of(op));
      assert SamePart(lines, j, n);
    }
    forall j | 0 <= j < n && SamePart(lines, j, n) ensures parts.Of(op) == lines[j].text != "" {
      assert Gives(lines[..n], j, head, op, lines[j].text);
      assert Given(lines[..n], head, op, lines[j].text);
    }
  }

  lemma CountedIff(start: Config, lines: seq<Line>, n: nat, nodes: nat)
    requires n <= |lines| && Settled(start.nodes, lines[..n], nodes)
    ensures nodes == 0 <==> start.nodes == 0 && !CountedBefore(lines, n)
  {
    hide Unsigned;
    if j :| 0 <= j < n && lines[j].Nodes? && Unsigned(lines[j].count) != Some(0) {
      assert lines[..n][j] == lines[j];
    }
    if j :| FirstCount(lines[..n], j) {
      assert lines[..n][j] == lines[j];
    }
  }

  lemma StepAcceptedIff(start: Config, lines: seq<Line>)
    requires start.profiles == map[] && start.current == Nobody && PartsNonempty(lines)
    requires lines != [] && Run(start, lines[..|lines| - 1]).Accepted?
    ensures Step(Run(start, lines[..|lines| - 1]).config, lines[|lines| - 1]).Accepted?
       <==> Fine(start, lines, |lines| - 1)
  {
    hide Run, Settled, ProfilesMean, CountedBefore, Repeated, Opening, LastSection, Unsigned;
    var n := |lines| - 1;
    var c := Run(start, lines[..n]).config;
    if lines[n].Nodes? {
      NodesMeaning(start, lines[..n]);
      CountedIff(start, lines, n, c.nodes);
    } else if lines[n].Part? {
      ProfileMeaning(start, lines[..n]);
      CurrentMeaning(start, lines[..n]);
      NeverDetached(start, lines[..n]);
      if c.current.Named? {
        PartFree(start, lines, c);
      }
    }
  }

  lemma {:induction false} NeverDetached(start: Config, lines: seq<Line>)
    requires start.current == Nobody && Run(start, lines).Accepted?
    ensures !Run(start, lines).config.current.Detached?
  {
    if lines != [] {
      NeverDetached(start, lines[..|lines| - 1]);
    }
  }

  /** On the first load of a process, the lines are taken to the end exactly when each is fine. */
  lemma {:induction false} RunAcceptedIff(start: Config, lines: seq<Line>)
    requires start.profiles == map[] && start.current == Nobody && PartsNonempty(lines)
    ensures Run(start, lines).Accepted? <==> forall k :: 0 <= k < |lines| ==> Fine(start, lines, k)
  {
    if lines != [] {
      var n := |lines| - 1;
      RunAcceptedIff(start, lines[..n]);
      assert Run(start, lines).Accepted? ==> Run(start, lines[..n]).Accepted?;
      forall k | 0 <= k < n ensures Fine(start, lines[..n], k) <==> Fine(start, lines, k) {
        FinePrefix(start, lines, n, k);
      }
      if Run(start, lines[..n]).Accepted? {
        hide Fine;
        StepAcceptedIff(start, lines);
      }
    }
  }

  ghost predicate HasPart(lines: seq<Line>, j: int, op: Op) {
    exists text: string :: text != "" && Given(lines, j, op, text)
  }

  ghost predicate SectionComplete(lines: seq<Line>, j: int) {
    HasPart(lines, j, Join) && HasPart(lines, j, Leave) && HasPart(lines, j, Put) && HasPart(lines, j, Get)
  }

  /** Node i is covered, last by a line that names a profile of the file. */
  ghost predicate Served(start: Config, lines: seq<Line>, i: nat) {
    exists j: nat :: LastCovers(start, lines, j, i) && LastSection(lines, lines[j].name) >= 0
  }

  lemma HasPartIff(lines: seq<Line>, j: int, parts: Parts, op: Op)
    requires PartsMean(lines, j, parts)
    ensures parts.Of(op) != "" <==> HasPart(lines, j, op)
  {
    hide Given;
    if parts.Of(op) != "" {
      assert Given(lines, j, op, parts.Of(op));
    }
  }

  lemma CompleteIff(lines: seq<Line>, j: int, parts: Parts)
    requires PartsMean(lines, j, parts)
    ensures parts.Complete() <==> SectionComplete(lines, j)
  {
    hide PartsMean, HasPart;
    HasPartIff(lines, j, parts, Join);
    HasPartIff(lines, j, parts, Leave);
    HasPartIff(lines, j, parts, Put);
    HasPartIff(lines, j, parts, Get);
  }

  lemma ServedIff(start: Config, lines: seq<Line>, c: Config, i: nat)
    requires start.nodeProfiles == map[] && Run(start, lines) == Accepted(c) && ProfilesMean(lines, c)
    ensures i in c.nodeProfiles && c.nodeProfiles[i] in c.profiles <==> Served(start, lines, i)
  {
    ChoiceMeaning(start, lines, i);
    hide LastSection, PartsMean, Run;
  }

  ghost predicate EverySectionComplete(lines: seq<Line>) {
    forall p :: LastSection(lines, p) >= 0 ==> SectionComplete(lines, LastSection(lines, p))
  }

  ghost predicate SomeSection(lines: seq<Line>) {
    exists p :: LastSection(lines, p) >= 0
  }

  ghost predicate SomeDuration(lines: seq<Line>) {
    exists j :: LastDuration(lines, j) && Unsigned(lines[j].seconds) != Some(0)
  }

  ghost predicate SomeNodes(start: Config, lines: seq<Line>) {
    start.nodes != 0 || exists j :: FirstCount(lines, j)
  }

  ghost predicate AllFine(start: Config, lines: seq<Line>) {
    forall k :: 0 <= k < |lines| ==> Fine(start, lines, k)
  }

  ghost predicate AllServed(start: Config, lines: seq<Line>) {
    forall i: nat | i < NodesGiven(start.nodes, lines) :: Served(start, lines, i)
  }

  lemma AllCompleteIff(lines: seq<Line>, c: Config)
    requires ProfilesMean(lines, c)
    ensures AllComplete(c) <==> EverySectionComplete(lines)
    ensures c.profiles != map[] <==> SomeSection(lines)
  {
    hide PartsMean, LastSection, SectionComplete;
    forall p ensures p in c.profiles ==> (c.profiles[p].Complete() <==> SectionComplete(lines, LastSection(lines, p))) {
      if p in c.profiles {
        CompleteIff(lines, LastSection(lines, p), c.profiles[p]);
      }
    }
    if AllComplete(c) {
      forall p | LastSection(lines, p) >= 0 ensures SectionComplete(lines, LastSection(lines, p)) {
        assert p in c.profiles;
      }
    }
    if c.profiles != map[] {
      var p :| p in c.profiles;
      assert LastSection(lines, p) >= 0;
    }
  }

  lemma SoundIff(start: Config, lines: seq<Line>, c: Config)
    requires start.duration == 0 && Run(start, lines) == Accepted(c)
    ensures c.nodes != 0 <==> SomeNodes(start, lines)
    ensures c.duration != 0 <==> SomeDuration(lines)
  {
    NodesMeaning(start, lines);
    DurationMeaning(start, lines);
    hide Run, Unsigned;
  }

  lemma ServedAllIff(start: Config, lines: seq<Line>, c: Config)
    requires start.nodeProfiles == map[] && Run(start, lines) == Accepted(c) && ProfilesMean(lines, c)
    ensures AllChosen(c) <==> AllServed(start, lines)
  {
    NodesAreGiven(start, lines);
    hide Run, Served, ProfilesMean, NodesGiven;
    forall i: nat ensures i in c.nodeProfiles && c.nodeProfiles[i] in c.profiles <==> Served(start, lines, i) {
      ServedIff(start, lines, c, i);
    }
  }

  /** A first load succeeds exactly when every line is fine where it stands, there are nodes, a
      duration and a profile, every profile is complete, and every node below the number of
      nodes is covered, last by a line that names a profile of the file. */
  lemma LoadAcceptedIff(start: Config, pieces: seq<string>)
    requires start.duration == 0 && start.profiles == map[] && start.nodeProfiles == map[] && start.current == Nobody
    ensures var lines := Lines(pieces);
            Load(start, pieces).Accepted?
            <==> AllFine(start, lines)
                 && SomeNodes(start, lines) && SomeDuration(lines) && SomeSection(lines)
                 && EverySectionComplete(lines) && AllServed(start, lines)
  {
    var lines := Lines(pieces);
    RunAcceptedIff(start, lines);
    hide Run, Lines, Fine, SomeNodes, SomeDuration, SomeSection, EverySectionComplete;
    hide AllServed, AllComplete, ProfilesMean, AllChosen;
    if Run(start, lines).Accepted? {
      var c := Run(start, lines).config;
      ProfileMeaning(start, lines);
      SoundIff(start, lines, c);
      AllCompleteIff(lines, c);
      ServedAllIff(start, lines, c);
    }
  }

  /** After any successful load every node has a profile with four parts: the one named by the
      last line that covers the node, with the parts given in its last section. */
  lemma EveryNodeServed(start: Config, pieces: seq<string>, i: nat)
    requires start.profiles == map[] && start.nodeProfiles == map[] && !start.current.Named?
    requires Load(start, pieces).Accepted? && i < Load(start, pieces).config.nodes
    ensures var lines, c := Lines(pieces), Load(start, pieces).config;
            && i in c.nodeProfiles && c.nodeProfiles[i] in c.profiles
            && (exists j: nat :: LastCovers(start, lines, j, i) && lines[j].name == c.nodeProfiles[i])
            && PartsNamed(lines, LastSection(lines, c.nodeProfiles[i]), c.profiles[c.nodeProfiles[i]])
            && c.profiles[c.nodeProfiles[i]].Complete()
  {
    var lines := Lines(pieces);
    ChoiceMeaning(start, lines, i);
    ProfileMeaning(start, lines);
    hide Run, Lines, LastSection, PartsMean, PartsNamed;
    var c := Load(start, pieces).config;
    MeanNamed(lines, LastSection(lines, c.nodeProfiles[i]), c.profiles[c.nodeProfiles[i]]);
  }

  /** A part before the first section of a later load goes to the profile that the load before it
      left: it is taken once, and resetting it ends the process. */
  lemma LeftoverProfile(c: Config, nodes: nat, name: string, op: Op, text: string)
    requires c.current == Named(name) && name in c.profiles && text != ""
    ensures var r := Run(Cleared(c, nodes), [Part(op, text)]);
            if c.profiles[name].Of(op) == "" then r.Accepted? && r.config.profiles == map[] else r == Killed
  {
    assert [Part(op, text)][..0] == [];
    assert Run(Cleared(c, nodes), []) == Accepted(Cleared(c, nodes));
  }

  lemma {:induction false} NodesKept(start: Config, lines: seq<Line>, n: nat)
    requires n <= |lines| && Run(start, lines).Accepted?
    ensures Run(start, lines[..n]).Accepted?
    ensures var known := Run(start, lines[..n]).config.nodes; known == 0 || known == Run(start, lines).config.nodes
  {
    if n == |lines| {
      assert lines[..n] == lines;
    } else {
      NodesKept(start, lines[..|lines| - 1], n);
      assert lines[..|lines| - 1][..n] == lines[..n];
    }
  }

  /** A default-profile line covers every node or none: none when it comes before the number. */
  lemma DefaultCoversAllOrNone(start: Config, lines: seq<Line>, j: nat, i: nat)
    requires Run(start, lines).Accepted? && j < |lines| && lines[j].Default?
    requires i < Run(start, lines).config.nodes
    ensures Covers(start, lines, j, i) <==> start.nodes != 0 || CountedBefore(lines, j)
  {
    NodesKept(start, lines, j);
    NodesMeaning(start, lines[..j]);
    CountedIff(start, lines, j, Run(start, lines[..j]).config.nodes);
    hide Run, Settled;
  }

  // ---------- the object ----------

  datatype Verdict = Continue | Reject | Kill

  lemma {:induction false} RunStops(start: Config, lines: seq<Line>, n: nat)
    requires n <= |lines| && !Run(start, lines[..n]).Accepted?
    ensures Run(start, lines) == Run(start, lines[..n])
  {
    if n == |lines| {
      assert lines[..n] == lines;
    } else {
      assert lines[..|lines| - 1][..n] == lines[..n];
      RunStops(start, lines[..|lines| - 1], n);
    }
  }

  lemma RunNone(start: Config)
    ensures Run(start, []) == Accepted(start)
  {
  }

  lemma RunNext(start: Config, lines: seq<Line>, n: nat)
    requires n < |lines| && Run(start, lines[..n]).Accepted?
    ensures Run(start, lines[..n + 1]) == Step(Run(start, lines[..n]).config, lines[n])
  {
    assert lines[..n + 1][..n] == lines[..n];
  }

  function VerdictOf(r: Result): Verdict {
    match r
    case Accepted(_) => Continue
    case Rejected => Reject
    case Killed => Kill
  }

  class MasterWorkload {
    var nodes: nat
    var duration: nat
    var profiles: map<string, Parts>
    var nodeProfiles: map<nat, string>
    var currentProfile: Current

    function Value(): Config
      reads this
    {
      Config(nodes, duration, profiles, nodeProfiles, currentProfile)
    }

    method SetPartOfCurrent(op: Op, text: string) returns (verdict: Verdict)
      modifies this
      ensures verdict == VerdictOf(SetPart(old(Value()), op, text))
      ensures verdict.Continue? ==> Accepted(Value()) == SetPart(old(Value()), op, text)
    {
      match currentProfile {
        case Nobody =>
          return Reject;
        case Detached(parts) =>
          if parts.Of(op) != "" {
            return Kill;
          }
          currentProfile := Detached(parts.With(op, text));
        case Named(name) =>
          if name !in profiles {
            return Reject;
          }
          if profiles[name].Of(op) != "" {
            return Kill;
          }
          profiles := profiles[name := profiles[name].With(op, text)];
      }
      return Continue;
    }

    method SetDefault(name: string)
      modifies this
      ensures Value() == old(Value()).(nodeProfiles := old(nodeProfiles) + Everyone(old(nodes), name))
    {
      for i := 0 to nodes
        invariant nodes == old(nodes) && duration == old(duration) && profiles == old(profiles)
        invariant currentProfile == old(currentProfile)
        invariant nodeProfiles == old(nodeProfiles) + Everyone(i, name)
      {
        nodeProfiles := nodeProfiles[i := name];
      }
    }

    method ProcessConfigLine(text: string) returns (verdict: Verdict)
      modifies this
      ensures verdict == VerdictOf(Step(old(Value()), Classify(text)))
      ensures verdict.Continue? ==> Accepted(Value()) == Step(old(Value()), Classify(text))
    {
      hide Classify;
      match Classify(text) {
        case Nodes(count) =>
          if nodes == 0 {
            if Unsigned(count).None? {
              return Kill;
            }
            nodes := Unsigned(count).value;
          }
        case Duration(seconds) =>
          if Unsigned(seconds).None? {
            return Kill;
          }
          duration := Unsigned(seconds).value;
        case Section(name) =>
          profiles := profiles[name := NO_PARTS];
          currentProfile := Named(name);
        case Part(op, part) =>
          verdict := SetPartOfCurrent(op, part);
          return;
        case Default(name) =>
          SetDefault(name);
        case Single(id, name) =>
          if Unsigned(id).None? {
            return Kill;
          }
          nodeProfiles := nodeProfiles[Unsigned(id).value := name];
        case Ignored =>
      }
      return Continue;
    }

    /** getNodeProfile, for a node of a loaded workload. */
    method GetNodeProfile(i: nat) returns (join: string, leave: string, put: string, get: string)
      requires i in nodeProfiles && nodeProfiles[i] in profiles
      ensures Parts(join, leave, put, get) == profiles[nodeProfiles[i]]
    {
      var parts := profiles[nodeProfiles[i]];
      join, leave, put, get := parts.join, parts.leave, parts.put, parts.get;
    }

    method Complete() returns (ok: bool)
      ensures ok <==> AllComplete(Value())
    {
      var left := profiles.Keys;
      while left != {}
        invariant left <= profiles.Keys
        invariant forall p :: p in profiles && p !in left ==> profiles[p].Complete()
      {
        var p :| p in left;
        if !profiles[p].Complete() {
          return false;
        }
        left := left - {p};
      }
      return true;
    }

    method Chosen() returns (ok: bool)
      ensures ok <==> AllChosen(Value())
    {
      for i := 0 to nodes
        invariant forall k :: 0 <= k < i ==> k in nodeProfiles && nodeProfiles[k] in profiles
      {
        if i !in nodeProfiles || nodeProfiles[i] !in profiles {
          return false;
        }
      }
      return true;
    }

    /** loadConfig on a file given by its pieces between line ends; the last of them, empty when
        the file ends in a line end, is read as a line too. */
    method LoadConfig(pieces: seq<string>, givenNodes: nat) returns (verdict: Verdict)
      modifies this
      ensures var cleared := Config(givenNodes, 0, map[], map[], Left(old(Value())));
              && verdict == VerdictOf(Load(cleared, pieces))
              && (verdict.Continue? ==> Accepted(Value()) == Load(cleared, pieces))
      ensures verdict.Continue? && givenNodes != 0 ==> nodes == givenNodes
    {
      hide Run, Step, Classify, Joined, LogicalFrom;
      currentProfile := Left(Value());
      nodes, duration, profiles, nodeProfiles := givenNodes, 0, map[], map[];
      ghost var start, all := Value(), Lines(pieces);
      RunNone(start);
      var pos := 0;
      ghost var taken := 0;
      while pos < |pieces|
        invariant pos <= |pieces| && taken <= |all|
        invariant LogicalFrom(pieces, 0)[taken..] == LogicalFrom(pieces, pos)
        invariant Run(start, all[..taken]) == Accepted(Value())
        decreases |pieces| - pos
      {
        ghost var was := pos;
        var line;
        line, pos := ReadLine(pieces, pos);
        TakenNext(pieces, taken, was);
        RunNext(start, all, taken);
        verdict := ProcessConfigLine(line);
        taken := taken + 1;
        if !verdict.Continue? {
          RunStops(start, all, taken);
          return;
        }
      }
      NoneRemain(pieces);
      assert all[..taken] == all;
      NodesMeaning(start, all);
      if nodes == 0 || duration == 0 || profiles == map[] {
        return Reject;
      }
      var complete := Complete();
      var chosen := Chosen();
      return if complete && chosen then Continue else Reject;
    }
  }
}
