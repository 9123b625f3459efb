/** The lines of the workload file, joined where one ends in a backslash. */
module WorkloadLines {
  predicate Continued(line: string) {
    line != "" && line[|line| - 1] == '\\'
  }

  /** getline at the end of the file reads nothing. */
  function NextPiece(pieces: seq<string>, pos: nat): string {
    if pos < |pieces| then pieces[pos] else ""
  }

  function NextPos(pieces: seq<string>, pos: nat): nat {
    if pos < |pieces| then pos + 1 else pos
  }

  /** The line begun by line and continued from pos on, and the position after it. */
  function Joined(pieces: seq<string>, pos: nat, line: string): (r: (string, nat))
    ensures pos <= r.1 && (pos <= |pieces| ==> r.1 <= |pieces|)
    decreases |pieces| - pos, |line|
  {
    if Continued(line)
    then Joined(pieces, NextPos(pieces, pos), line[..|line| - 1] + NextPiece(pieces, pos))
    else (line, pos)
  }

  function LogicalFrom(pieces: seq<string>, pos: nat): seq<string>
    requires pos <= |pieces|
    decreases |pieces| - pos
  {
    if pos == |pieces| then []
    else
      var (line, next) := Joined(pieces, pos + 1, pieces[pos]);
      [line] + LogicalFrom(pieces, next)
  }

  // how often the line begun by line is continued
  function Joins(pieces: seq<string>, pos: nat, line: string): nat
    decreases |pieces| - pos, |line|
  {
    if Continued(line)
    then 1 + Joins(pieces, NextPos(pieces, pos), line[..|line| - 1] + NextPiece(pieces, pos))
    else 0
  }

  function AllJoins(pieces: seq<string>, pos: nat): nat
    requires pos <= |pieces|
    decreases |pieces| - pos
  {
    if pos == |pieces| then 0
    else Joins(pieces, pos + 1, pieces[pos]) + AllJoins(pieces, Joined(pieces, pos + 1, pieces[pos]).1)
  }

  function Concat(lines: seq<string>): string {
    if lines == [] then "" else Concat(lines[..|lines| - 1]) + lines[|lines| - 1]
  }

  function Sum(cuts: seq<nat>): nat {
    if cuts == [] then 0 else Sum(cuts[..|cuts| - 1]) + cuts[|cuts| - 1]
  }

  /** The last k characters of piece are backslashes. */
  predicate EndsIn(piece: string, k: nat) {
    k <= |piece| && forall j :: |piece| - k <= j < |piece| ==> piece[j] == '\\'
  }

  ghost predicate CanCut(pieces: seq<string>, cuts: seq<nat>) {
    |cuts| == |pieces| && forall i :: 0 <= i < |pieces| ==> EndsIn(pieces[i], cuts[i])
  }

  function CutEnd(piece: string, k: nat): string
    requires EndsIn(piece, k)
  {
    piece[..|piece| - k]
  }

  // every piece less as many of its last characters as cuts says
  function Cut(pieces: seq<string>, cuts: seq<nat>): seq<string>
    requires CanCut(pieces, cuts)
  {
    seq(|pieces|, i requires 0 <= i < |pieces| => CutEnd(pieces[i], cuts[i]))
  }

  /** text is that of the pieces less, in all, count backslashes, each at the end of its piece. */
  ghost predicate LessBackslashes(pieces: seq<string>, count: nat, text: string) {
    exists cuts :: CanCut(pieces, cuts) && Sum(cuts) == count && text == Concat(Cut(pieces, cuts))
  }

  lemma CutAppend(pieces: seq<string>, cuts: seq<nat>, piece: string, k: nat)
    requires CanCut(pieces, cuts) && EndsIn(piece, k)
    ensures CanCut(pieces + [piece], cuts + [k]) && Sum(cuts + [k]) == Sum(cuts) + k
    ensures Concat(Cut(pieces + [piece], cuts + [k])) == Concat(Cut(pieces, cuts)) + piece[..|piece| - k]
  {
    var more := Cut(pieces + [piece], cuts + [k]);
    assert (cuts + [k])[..|cuts|] == cuts;
    assert more == Cut(pieces, cuts) + [piece[..|piece| - k]];
    assert more[..|pieces|] == Cut(pieces, cuts);
  }

  lemma EndsInMore(before: string, piece: string, k: nat)
    requires EndsIn(piece, k) && k < |piece| && Continued(before + piece[..|piece| - k])
    ensures EndsIn(piece, k + 1)
    ensures var text := before + piece[..|piece| - k]; text[..|text| - 1] == before + piece[..|piece| - (k + 1)]
  {
    var text := before + piece[..|piece| - k];
    assert text[|text| - 1] == piece[|piece| - k - 1];
  }

  // one more backslash can be taken off the end of a text that ends in one
  lemma {:induction false} CutOneMore(pieces: seq<string>, cuts: seq<nat>) returns (cuts': seq<nat>)
    requires CanCut(pieces, cuts) && Continued(Concat(Cut(pieces, cuts)))
    ensures CanCut(pieces, cuts') && Sum(cuts') == Sum(cuts) + 1
    ensures var text := Concat(Cut(pieces, cuts)); Concat(Cut(pieces, cuts')) == text[..|text| - 1]
    decreases |pieces|
  {
    CutNotEmpty(pieces, cuts);
    var n := |pieces| - 1;
    var piece, k := pieces[n], cuts[n];
    CutLast(pieces, cuts);
    hide Cut, Sum, Concat, EndsIn;
    var before := Concat(Cut(pieces[..n], cuts[..n]));
    CutAppend(pieces[..n], cuts[..n], piece, k);
    if k == |piece| {
      assert before + piece[..|piece| - k] == before;
      var less := CutOneMore(pieces[..n], cuts[..n]);
      CutAppend(pieces[..n], less, piece, k);
      AddNothing(before[..|before| - 1], piece, k);
      hide CanCut, Continued;
      cuts' := less + [k];
    } else {
      EndsInMore(before, piece, k);
      CutAppend(pieces[..n], cuts[..n], piece, k + 1);
      hide CanCut, Continued;
      cuts' := cuts[..n] + [k + 1];
    }
  }

  lemma AddNothing(text: string, piece: string, k: nat)
    requires k == |piece|
    ensures text + piece[..|piece| - k] == text
  {
  }

  lemma CutNotEmpty(pieces: seq<string>, cuts: seq<nat>)
    requires CanCut(pieces, cuts) && Concat(Cut(pieces, cuts)) != ""
    ensures pieces != []
  {
  }

  lemma CutLast(pieces: seq<string>, cuts: seq<nat>)
    requires CanCut(pieces, cuts) && pieces != []
    ensures var n := |pieces| - 1;
            && pieces == pieces[..n] + [pieces[n]] && cuts == cuts[..n] + [cuts[n]]
            && CanCut(pieces[..n], cuts[..n]) && EndsIn(pieces[n], cuts[n]) && cuts[n] <= |pieces[n]|
  {
  }

  lemma NotEmpty(line: string)
    requires Continued(line)
    ensures |line| > 0
  {
  }

  lemma JoinOnce(pieces: seq<string>, count: nat, line: string, next: string)
    requires LessBackslashes(pieces, count, line) && Continued(line)
    ensures LessBackslashes(pieces + [next], count + 1, line[..|line| - 1] + next)
    ensures LessBackslashes(pieces, count + 1, line[..|line| - 1])
  {
    hide Sum, Concat, Cut, CanCut, Continued;
    var cuts :| CanCut(pieces, cuts) && Sum(cuts) == count && line == Concat(Cut(pieces, cuts));
    assert |line| > 0 by {
      NotEmpty(line);
    }
    var more := CutOneMore(pieces, cuts);
    CutAppend(pieces, more, next, 0);
    assert next[..|next| - 0] == next;
  }

  lemma JoinedOnce(pieces: seq<string>, from: nat, pos: nat, count: nat, line: string)
    requires from <= pos <= |pieces| && LessBackslashes(pieces[from..pos], count, line) && Continued(line)
    ensures LessBackslashes(pieces[from..NextPos(pieces, pos)], count + 1,
                            line[..|line| - 1] + NextPiece(pieces, pos))
  {
    hide LessBackslashes;
    JoinOnce(pieces[from..pos], count, line, NextPiece(pieces, pos));
    if pos < |pieces| {
      assert pieces[from..pos] + [pieces[pos]] == pieces[from..pos + 1];
    } else {
      assert line[..|line| - 1] + "" == line[..|line| - 1];
    }
  }

  lemma {:induction false} JoinedKeepsText(pieces: seq<string>, from: nat, pos: nat, count: nat, line: string)
    requires from <= pos <= |pieces| && LessBackslashes(pieces[from..pos], count, line)
    ensures var (joined, next) := Joined(pieces, pos, line);
            LessBackslashes(pieces[from..next], count + Joins(pieces, pos, line), joined)
    decreases |pieces| - pos, |line|
  {
    hide LessBackslashes;
    if Continued(line) {
      JoinedOnce(pieces, from, pos, count, line);
      JoinedKeepsText(pieces, from, NextPos(pieces, pos), count + 1, line[..|line| - 1] + NextPiece(pieces, pos));
    }
  }

  lemma PieceAlone(piece: string)
    ensures LessBackslashes([piece], 0, piece)
  {
    assert CanCut([piece], [0]) && Sum([0]) == 0;
    CutAppend([], [], piece, 0);
    assert [] + [piece] == [piece] && [] + [0] == [0];
    assert piece[..|piece| - 0] == piece;
  }

  lemma ConcatAppend(a: seq<string>, line: string)
    ensures Concat(a + [line]) == Concat(a) + line
  {
    assert (a + [line])[..|a|] == a;
  }

  lemma {:induction false} ConcatBoth(a: seq<string>, b: seq<string>)
    ensures Concat(a + b) == Concat(a) + Concat(b)
    decreases |b|
  {
    if b == [] {
      assert a + b == a;
    } else {
      hide Concat;
      var n := |b| - 1;
      ConcatBoth(a, b[..n]);
      ConcatAppend(b[..n], b[n]);
      ConcatAppend(a + b[..n], b[n]);
      assert b == b[..n] + [b[n]];
      assert a + b == a + b[..n] + [b[n]];
      assert Concat(a) + (Concat(b[..n]) + b[n]) == Concat(a) + Concat(b[..n]) + b[n];
    }
  }

  lemma {:induction false} SumBoth(a: seq<nat>, b: seq<nat>)
    ensures Sum(a + b) == Sum(a) + Sum(b)
    decreases |b|
  {
    if b == [] {
      assert a + b == a;
    } else {
      assert (a + b)[..|a + b| - 1] == a + b[..|b| - 1];
      SumBoth(a, b[..|b| - 1]);
    }
  }

  lemma CutBoth(a: seq<string>, x: seq<nat>, b: seq<string>, y: seq<nat>)
    requires CanCut(a, x) && CanCut(b, y)
    ensures CanCut(a + b, x + y) && Cut(a + b, x + y) == Cut(a, x) + Cut(b, y)
  {
    hide EndsIn, CutEnd;
  }

  lemma LessBoth(a: seq<string>, m: nat, s: string, b: seq<string>, n: nat, t: string)
    requires LessBackslashes(a, m, s) && LessBackslashes(b, n, t)
    ensures LessBackslashes(a + b, m + n, s + t)
  {
    hide Sum, Concat, EndsIn, Cut, CanCut;
    var x :| CanCut(a, x) && Sum(x) == m && s == Concat(Cut(a, x));
    var y :| CanCut(b, y) && Sum(y) == n && t == Concat(Cut(b, y));
    SumBoth(x, y);
    CutBoth(a, x, b, y);
    ConcatBoth(Cut(a, x), Cut(b, y));
  }

  lemma NothingLess()
    ensures LessBackslashes([], 0, "")
  {
    assert CanCut([], []) && Sum([]) == 0 && Concat(Cut([], [])) == "";
  }

  lemma ConcatFirst(line: string, lines: seq<string>)
    ensures Concat([line] + lines) == line + Concat(lines)
  {
    ConcatBoth([line], lines);
    assert [line][..0] == [];
    assert Concat([line]) == line;
  }

  lemma {:induction false} NoneContinued(pieces: seq<string>, pos: nat)
    requires pos <= |pieces|
    ensures forall line :: line in LogicalFrom(pieces, pos) ==> !Continued(line)
    decreases |pieces| - pos
  {
    if pos < |pieces| {
      hide Joined;
      JoinedEnds(pieces, pos + 1, pieces[pos]);
      NoneContinued(pieces, Joined(pieces, pos + 1, pieces[pos]).1);
    }
  }

  lemma {:induction false} JoinedEnds(pieces: seq<string>, pos: nat, line: string)
    ensures !Continued(Joined(pieces, pos, line).0)
    decreases |pieces| - pos, |line|
  {
    if Continued(line) {
      JoinedEnds(pieces, NextPos(pieces, pos), line[..|line| - 1] + NextPiece(pieces, pos));
    }
  }

  lemma {:induction false} TextKept(pieces: seq<string>, pos: nat)
    requires pos <= |pieces|
    ensures LessBackslashes(pieces[pos..], AllJoins(pieces, pos), Concat(LogicalFrom(pieces, pos)))
    decreases |pieces| - pos
  {
    hide LessBackslashes, Joined, Joins, Concat, Continued;
    if pos == |pieces| {
      NothingLess();
      ConcatNothing();
      assert pieces[pos..] == [] && LogicalFrom(pieces, pos) == [];
    } else {
      var (line, next) := Joined(pieces, pos + 1, pieces[pos]);
      PieceAlone(pieces[pos]);
      assert pieces[pos..pos + 1] == [pieces[pos]];
      JoinedKeepsText(pieces, pos, pos + 1, 0, pieces[pos]);
      TextKept(pieces, next);
      LessBoth(pieces[pos..next], Joins(pieces, pos + 1, pieces[pos]), line,
               pieces[next..], AllJoins(pieces, next), Concat(LogicalFrom(pieces, next)));
      assert pieces[pos..next] + pieces[next..] == pieces[pos..];
      ConcatFirst(line, LogicalFrom(pieces, next));
    }
  }

  /** Joining ends on every file, backslashes at its end included. The lines are the text of the
      pieces, in order, less exactly one backslash for each join, taken from the end of a piece:
      those inside a line stay. No line is left to be continued. */
  lemma JoiningKeepsText(pieces: seq<string>)
    ensures LessBackslashes(pieces, AllJoins(pieces, 0), Concat(LogicalFrom(pieces, 0)))
    ensures forall line :: line in LogicalFrom(pieces, 0) ==> !Continued(line)
  {
    hide LessBackslashes, AllJoins, Concat, LogicalFrom, Continued;
    assert pieces[0..] == pieces;
    TextKept(pieces, 0);
    NoneContinued(pieces, 0);
  }

  lemma ConcatNothing()
    ensures Concat([]) == ""
  {
  }

  lemma {:induction false} NothingJoined(pieces: seq<string>, pos: nat)
    requires pos <= |pieces| && forall i :: 0 <= i < |pieces| ==> !Continued(pieces[i])
    ensures LogicalFrom(pieces, pos) == pieces[pos..]
    decreases |pieces| - pos
  {
    if pos < |pieces| {
      NothingJoined(pieces, pos + 1);
    }
  }

  /** The lines are the pieces of the file exactly when none of them ends in a backslash. */
  lemma JoiningIff(pieces: seq<string>)
    ensures LogicalFrom(pieces, 0) == pieces <==> forall i :: 0 <= i < |pieces| ==> !Continued(pieces[i])
  {
    if forall i :: 0 <= i < |pieces| ==> !Continued(pieces[i]) {
      NothingJoined(pieces, 0);
    } else {
      NoneContinued(pieces, 0);
      var i :| 0 <= i < |pieces| && Continued(pieces[i]);
      assert pieces[i] in pieces;
    }
  }

  // ---------- where a line ends ----------

  // what is read from a place on does not depend on what stands before it
  lemma {:induction false} JoinedShift(pieces: seq<string>, pos: nat, pieces': seq<string>, pos': nat, line: string)
    requires pos <= |pieces| && pos' <= |pieces'| && pieces[pos..] == pieces'[pos'..]
    ensures Joined(pieces, pos, line).0 == Joined(pieces', pos', line).0
    ensures Joined(pieces, pos, line).1 - pos == Joined(pieces', pos', line).1 - pos'
    ensures pieces[Joined(pieces, pos, line).1..] == pieces'[Joined(pieces', pos', line).1..]
    decreases |pieces| - pos, |line|
  {
    if Continued(line) {
      hide Continued;
      SuffixShift(pieces, pos, pieces', pos');
      JoinedShift(pieces, NextPos(pieces, pos), pieces', NextPos(pieces', pos'),
                  line[..|line| - 1] + NextPiece(pieces, pos));
    }
  }

  lemma SuffixShift(pieces: seq<string>, pos: nat, pieces': seq<string>, pos': nat)
    requires pos <= |pieces| && pos' <= |pieces'| && pieces[pos..] == pieces'[pos'..]
    ensures NextPiece(pieces, pos) == NextPiece(pieces', pos')
    ensures NextPos(pieces, pos) - pos == NextPos(pieces', pos') - pos'
    ensures pieces[NextPos(pieces, pos)..] == pieces'[NextPos(pieces', pos')..]
  {
    assert |pieces| - pos == |pieces'| - pos' by {
      assert |pieces[pos..]| == |pieces'[pos'..]|;
    }
    if pos < |pieces| {
      assert pieces[pos] == pieces[pos..][0] && pieces'[pos'] == pieces'[pos'..][0];
      assert pieces[pos + 1..] == pieces[pos..][1..] && pieces'[pos' + 1..] == pieces'[pos'..][1..];
    }
  }

  lemma {:induction false} LogicalShift(pieces: seq<string>, pos: nat, pieces': seq<string>, pos': nat)
    requires pos <= |pieces| && pos' <= |pieces'| && pieces[pos..] == pieces'[pos'..]
    ensures LogicalFrom(pieces, pos) == LogicalFrom(pieces', pos')
    decreases |pieces| - pos
  {
    assert |pieces[pos..]| == |pieces'[pos'..]|;
    if pos < |pieces| {
      hide Joined;
      SuffixShift(pieces, pos, pieces', pos');
      JoinedShift(pieces, pos + 1, pieces', pos' + 1, pieces[pos]);
      LogicalShift(pieces, Joined(pieces, pos + 1, pieces[pos]).1, pieces', Joined(pieces', pos' + 1, pieces[pos]).1);
    }
  }

  // one line read, and the rest
  lemma LogicalFirst(pieces: seq<string>, rest: seq<string>, at: nat, line: string)
    requires at <= |pieces| && pieces[at..] == rest && |pieces| > 0
    requires Joined(pieces, 1, pieces[0]) == Joined(pieces, at, line)
    ensures LogicalFrom(pieces, 0) == LogicalFrom([line] + rest, 0)
  {
    hide Joined;
    var other := [line] + rest;
    assert other[1..] == rest;
    JoinedShift(pieces, at, other, 1, line);
    LogicalShift(pieces, Joined(pieces, at, line).1, other, Joined(other, 1, line).1);
  }

  /** A backslash at the end of a piece joins it to the next piece and to no more. */
  lemma ContinuedLine(a: string, b: string, rest: seq<string>)
    ensures LogicalFrom([a + "\\", b] + rest, 0) == LogicalFrom([a + b] + rest, 0)
  {
    var pieces := [a + "\\", b] + rest;
    assert Continued(pieces[0]) && pieces[0][..|pieces[0]| - 1] == a;
    assert pieces[2..] == rest;
    LogicalFirst(pieces, rest, 2, a + b);
  }

  /** At the end of the file it is dropped. */
  lemma ContinuedAtEnd(a: string)
    ensures LogicalFrom([a + "\\"], 0) == LogicalFrom([a], 0)
  {
    var pieces := [a + "\\"];
    assert Continued(pieces[0]) && pieces[0][..|pieces[0]| - 1] == a && a + "" == a;
    LogicalFirst(pieces, [], 1, a);
    assert [a] + [] == [a];
  }

  /** Any other piece is a line by itself. */
  lemma PlainLine(a: string, rest: seq<string>)
    requires !Continued(a)
    ensures LogicalFrom([a] + rest, 0) == [a] + LogicalFrom(rest, 0)
  {
    var pieces := [a] + rest;
    assert Joined(pieces, 1, a) == (a, 1);
    assert pieces[1..] == rest && rest[0..] == rest;
    LogicalShift(pieces, 1, rest, 0);
  }

  // ---------- the loop ----------

  /** Reading one more line of the file leaves the lines after it. */
  lemma TakenNext(pieces: seq<string>, taken: nat, pos: nat)
    requires pos < |pieces| && taken <= |LogicalFrom(pieces, 0)|
    requires LogicalFrom(pieces, 0)[taken..] == LogicalFrom(pieces, pos)
    ensures var (line, next) := Joined(pieces, pos + 1, pieces[pos]);
            && taken < |LogicalFrom(pieces, 0)| && LogicalFrom(pieces, 0)[taken] == line
            && LogicalFrom(pieces, 0)[taken + 1..] == LogicalFrom(pieces, next)
  {
    hide Joined;
    var (line, next) := Joined(pieces, pos + 1, pieces[pos]);
    var all := LogicalFrom(pieces, 0);
    assert all[taken..] == [line] + LogicalFrom(pieces, next);
    assert all[taken + 1..] == all[taken..][1..];
    assert all[taken] == all[taken..][0];
  }

  lemma NoneRemain(pieces: seq<string>)
    ensures LogicalFrom(pieces, |pieces|) == []
  {
  }

  method ReadLine(pieces: seq<string>, start: nat) returns (line: string, pos: nat)
    requires start < |pieces|
    ensures (line, pos) == Joined(pieces, start + 1, pieces[start])
    ensures start < pos <= |pieces| && !Continued(line)
  {
    line, pos := pieces[start], start + 1;
    while Continued(line)
      invariant start < pos <= |pieces| && Joined(pieces, pos, line) == Joined(pieces, start + 1, pieces[start])
      decreases |pieces| - pos, |line|
    {
      line, pos := line[..|line| - 1] + NextPiece(pieces, pos), NextPos(pieces, pos);
    }
  }
}
