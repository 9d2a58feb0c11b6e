/** Which lines of a text are a program's (src/asm.rs:1008-1112): what comments
    and the marks around a program do to its lines. */
module Readings {
  import opened Redcode
  import opened Text
  import opened AsmText
  import opened Symbols
  import opened Listings
  import opened Assembler

  /** No end of a line in it. */
  predicate Unbroken(l: string) {
    forall i :: 0 <= i < |l| ==> l[i] != '\n' && l[i] != '\r'
  }

  /** A line that is read in one go. */
  predicate OneLine(l: string) {
    && |l| < MAXALLCHAR - 1 && (l != "" ==> l[|l| - 1] != '\\')
    && Unbroken(l)
  }

  predicate AllOneLine(ls: seq<string>) {
    forall k :: 0 <= k < |ls| ==> OneLine(ls[k])
  }

  lemma OneLineReads(l: string, rest: string)
    requires OneLine(l)
    ensures LineRead(l + ("\n" + rest), "") == (l, rest, true)
  {
    hide Taken, Cut;
    TameTaken(l, rest, MAXALLCHAR - 1);
    TameCut(l);
    var s := l + ("\n" + rest);
    assert s[|l + "\n"|..] == rest && "" + l == l;
  }

  /** One read of a line takes `a` of `a + b`, which is `c` when it is cut. */
  lemma ReadOnce(s: string, a: string, b: string, c: string, buf: string)
    requires |buf| < MAXALLCHAR - 1 && s == a + b && a != ""
    requires Taken(s, MAXALLCHAR - 1 - |buf|) == a && Cut(a) == c
    ensures var line := buf + c;
            LineRead(s, buf)
            == if line == "" || line[|line| - 1] != '\\' then (line, b, true) else LineRead(b, line[..|line| - 1])
  {
    hide Taken, Cut;
    assert s[|a|..] == b;
  }

  /** A backslash at the end of a line puts the next line in its place. */
  lemma ContinuedReads(l: string, m: string, rest: string)
    requires Unbroken(l) && Unbroken(m) && |l| + |m| + 1 < MAXALLCHAR - 1
    requires l + m == "" || (l + m)[|l + m| - 1] != '\\'
    ensures LineRead(l + "\\" + ("\n" + (m + ("\n" + rest))), "") == (l + m, rest, true)
  {
    hide Taken, Cut, LineRead;
    var first, next := l + "\\", m + ("\n" + rest);
    FirstReads(l, next);
    TameTaken(m, rest, MAXALLCHAR - 1 - |l|);
    TameCut(m);
    assert next == m + "\n" + rest;
    ReadOnce(next, m + "\n", rest, m, l);
  }

  lemma FirstReads(l: string, next: string)
    requires Unbroken(l) && |l| + 1 < MAXALLCHAR - 1
    ensures LineRead(l + "\\" + ("\n" + next), "") == LineRead(next, l)
  {
    hide Taken, Cut, LineRead;
    var first := l + "\\";
    TameTaken(first, next, MAXALLCHAR - 1);
    TameCut(first);
    assert first + ("\n" + next) == first + "\n" + next && "" + first == first && first[..|l|] == l;
    ReadOnce(first + ("\n" + next), first + "\n", next, first, "");
  }

  /** A line is cut at a carriage return. */
  lemma ReturnReads(l: string, rest: string)
    requires Unbroken(l) && |l| + 1 < MAXALLCHAR - 1 && (l != "" ==> l[|l| - 1] != '\\')
    ensures LineRead(l + ("\r" + ("\n" + rest)), "") == (l, rest, true)
  {
    hide Taken, Cut, LineRead;
    Regrouped(l, "\r", "\n", rest);
    TameTaken(l + "\r", rest, MAXALLCHAR - 1);
    ReturnCuts(l, "\n");
    assert "" + l == l;
    ReadOnce(l + ("\r" + ("\n" + rest)), l + ("\r" + "\n"), rest, l, "");
  }

  lemma Regrouped(l: string, x: string, y: string, rest: string)
    ensures l + x + (y + rest) == l + (x + (y + rest)) == l + (x + y) + rest
    ensures l + x + y == l + (x + y)
  {
  }

  lemma {:induction false} ReturnCuts(l: string, t: string)
    requires Unbroken(l)
    ensures Cut(l + ("\r" + t)) == l
  {
    if l != "" {
      ReturnCuts(l[1..], t);
      assert (l + ("\r" + t))[1..] == l[1..] + ("\r" + t);
    }
  }

  /** What is behind 255 characters is read as the next line. */
  lemma LongReads(l: string, rest: string)
    requires Unbroken(l) && |l| == MAXALLCHAR - 1 && l[|l| - 1] != '\\'
    ensures LineRead(l + rest, "") == (l, rest, true)
  {
    hide Taken, Cut, LineRead;
    FullTaken(l, rest);
    FullCut(l);
    assert "" + l == l;
    ReadOnce(l + rest, l, rest, l, "");
  }

  lemma {:induction false} FullTaken(l: string, rest: string)
    requires Unbroken(l)
    ensures Taken(l + rest, |l|) == l
  {
    if l != "" {
      FullTaken(l[1..], rest);
      assert (l + rest)[1..] == l[1..] + rest;
    }
  }

  lemma {:induction false} FullCut(l: string)
    requires Unbroken(l)
    ensures Cut(l) == l
  {
    if l != "" {
      FullCut(l[1..]);
    }
  }

  /** The lines taken one after another, until a mark ends the program. */
  function TakenFrom(ls: seq<string>, loc: nat, lines: seq<Line>, started: bool): seq<Line> {
    if ls == [] then lines
    else
      var (now, on, ended) := LineTaken(ls[0], loc + 1, lines, started);
      if ended then now else TakenFrom(ls[1..], loc + 1, now, on)
  }

  lemma {:induction false} LinesAreTaken(ls: seq<string>, loc: nat, lines: seq<Line>, started: bool)
    requires AllOneLine(ls)
    ensures LinesFrom(Joined(ls), loc, lines, started) == TakenFrom(ls, loc, lines, started)
  {
    hide LineTaken, LinesFrom, OneLine, LineRead;
    LinesFromStep(Joined(ls), loc, lines, started);
    if ls == [] {
      NothingLeft(loc, lines, started);
    } else {
      OneLineReads(ls[0], Joined(ls[1..]));
      var (now, on, ended) := LineTaken(ls[0], loc + 1, lines, started);
      if !ended {
        LinesAreTaken(ls[1..], loc + 1, now, on);
      }
    }
  }

  lemma NothingLeft(loc: nat, lines: seq<Line>, started: bool)
    ensures LineRead("", "") == ("", "", false) && LineTaken("", loc + 1, lines, started) == (lines, started, false)
  {
  }

  // ---- marks ----

  /** `;redcode`. */
  predicate Marks(l: string) {
    GetToken(l).0.kind.Comm? && Frames(GetToken(l).1)
  }

  /** In any case, right behind the semicolon, whatever is behind the word. */
  lemma MarkReads(word: string, rest: string)
    requires word != "" && AllWord(word) && IsAlpha(word[0]) && !IsWord(Head(rest))
    ensures Marks(";" + (word + rest)) <==> Upper(word) == "REDCODE"
  {
    hide Upper;
    WordToken(word, rest);
    assert (";" + (word + rest))[1..] == word + rest;
  }

  predicate NoneMarks(ls: seq<string>) {
    forall k :: 0 <= k < |ls| ==> !Marks(ls[k])
  }

  lemma MarkTaken(l: string, loc: nat, lines: seq<Line>, started: bool)
    ensures Marks(l) ==>
              LineTaken(l, loc, lines, started) == if started then (lines, true, true) else ([], true, false)
    ensures !Marks(l) ==>
              LineTaken(l, loc, lines, started)
              == (lines + if Kept(l).Some? then [Line(Kept(l).value, loc)] else [], started, false)
  {
    hide Asserted, Uncommented, Frames;
    assert lines + [] == lines;
  }

  /** Lines, a mark, and the lines behind it. */
  function Marked(before: seq<string>, mark: string, after: seq<string>): seq<string> {
    before + ([mark] + after)
  }

  lemma MarkedOn(before: seq<string>, mark: string, after: seq<string>)
    ensures var all := Marked(before, mark, after);
            && all != []
            && (before == [] ==> all[0] == mark && all[1..] == after)
            && (before != [] ==> all[0] == before[0] && all[1..] == Marked(before[1..], mark, after))
  {
    var all := before + ([mark] + after);
    if before == [] {
      assert all == [mark] + after;
    } else {
      assert all[1..] == before[1..] + ([mark] + after);
    }
  }

  lemma {:induction false} MarkStarts(before: seq<string>, mark: string, ls: seq<string>, loc: nat, lines: seq<Line>)
    requires NoneMarks(before) && Marks(mark)
    ensures TakenFrom(Marked(before, mark, ls), loc, lines, false) == TakenFrom(ls, loc + |before| + 1, [], true)
    decreases |before|
  {
    hide LineTaken, Marks, Marked;
    MarkedOn(before, mark, ls);
    MarkTaken(Marked(before, mark, ls)[0], loc + 1, lines, false);
    if before != [] {
      MarkStarts(before[1..], mark, ls, loc + 1, LineTaken(before[0], loc + 1, lines, false).0);
    }
  }

  lemma {:induction false} MarkEnds(code: seq<string>, mark: string, ls: seq<string>, loc: nat, lines: seq<Line>)
    requires NoneMarks(code) && Marks(mark)
    ensures TakenFrom(Marked(code, mark, ls), loc, lines, true) == lines + AllKept(code, loc)
    decreases |code|
  {
    hide LineTaken, Marks, Marked, Kept;
    MarkedOn(code, mark, ls);
    MarkTaken(Marked(code, mark, ls)[0], loc + 1, lines, true);
    if code != [] {
      MarkEnds(code[1..], mark, ls, loc + 1, LineTaken(code[0], loc + 1, lines, true).0);
    }
  }

  /** Only what is between two marks is the program: what is before the first and
      behind the second does not matter, whatever it is. */
  lemma BetweenMarks(before: seq<string>, mark: string, code: seq<string>, next: string, after: seq<string>)
    requires AllOneLine(Marked(before, mark, Marked(code, next, after)))
    requires NoneMarks(before) && NoneMarks(code) && Marks(mark) && Marks(next)
    ensures SourceLines(Joined(Marked(before, mark, Marked(code, next, after)))) == AllKept(code, |before| + 1)
  {
    hide LinesFrom, TakenFrom, Joined, AllOneLine, Marks, NoneMarks, Marked, AllKept;
    var rest := Marked(code, next, after);
    LinesAreTaken(Marked(before, mark, rest), 0, [], false);
    MarkStarts(before, mark, rest, 0, []);
    MarkEnds(code, next, after, |before| + 1, []);
    assert [] + AllKept(code, |before| + 1) == AllKept(code, |before| + 1);
  }

  // ---- lines and comments ----

  /** What a line is to the assembler: what is before its comment, an assertion
      whole, and nothing if it is blank or a comment. */
  function Kept(l: string): Option<string> {
    var (tok, rest) := GetToken(l);
    if tok.kind.End? then None else if tok.kind.Comm? then Asserted(l, rest) else Some(Uncommented(l))
  }

  /** Those of some lines, each with its number. */
  function AllKept(ls: seq<string>, loc: nat): seq<Line> {
    if ls == [] then []
    else (if Kept(ls[0]).Some? then [Line(Kept(ls[0]).value, loc + 1)] else []) + AllKept(ls[1..], loc + 1)
  }

  lemma {:induction false} TakenAreKept(ls: seq<string>, loc: nat, lines: seq<Line>, started: bool)
    requires NoneMarks(ls)
    ensures TakenFrom(ls, loc, lines, started) == lines + AllKept(ls, loc)
  {
    hide LineTaken, Marks, Kept;
    if ls != [] {
      MarkTaken(ls[0], loc + 1, lines, started);
      TakenAreKept(ls[1..], loc + 1, LineTaken(ls[0], loc + 1, lines, started).0, started);
    }
  }

  /** So without marks every line counts, and with them those between. */
  lemma SourceIsKept(ls: seq<string>)
    requires AllOneLine(ls) && NoneMarks(ls)
    ensures SourceLines(Joined(ls)) == AllKept(ls, 0)
  {
    hide LinesFrom, TakenFrom, Joined, AllOneLine, NoneMarks;
    LinesAreTaken(ls, 0, [], false);
    TakenAreKept(ls, 0, [], false);
    assert [] + AllKept(ls, 0) == AllKept(ls, 0);
  }

  /** A comment behind a line is not part of it. */
  lemma {:induction false} CommentAside(code: string, comment: string)
    requires forall i :: 0 <= i < |code| ==> code[i] != ';'
    ensures Uncommented(code + (";" + comment)) == code
  {
    var s := code + (";" + comment);
    if code != "" {
      CommentAside(code[1..], comment);
      assert s[0] == code[0] && s[1..] == code[1..] + (";" + comment);
    }
  }
}
