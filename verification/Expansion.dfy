/** What a FOR means: its lines are written once a round with the counter at the
    round, or passed over when there is none (src/asm.rs:1133-1204, 1325-1339). */
module Expansion {
  import opened Redcode
  import opened Text
  import opened Evaluator
  import opened AsmText
  import opened Encodings
  import opened Symbols
  import opened Labels
  import opened Assembler

  // ---- one round ----

  /** A ROF closes the lines before it, each of them short enough for the depth
      left. */
  predicate Block(lines: seq<Line>, fuel: nat, from: nat, rof: nat) {
    && from <= rof < |lines| && fuel > 0
    && GetToken(lines[rof].text).0.kind.Char? && PseudoOf(GetToken(lines[rof].text).0.text).Rof?
    && forall k :: from <= k < rof ==> |lines[k].text| < fuel
  }

  /** What the first `k` lines of a block become in a round, and the number of the
      next instruction; nothing where one is no instruction that fits a line. */
  function Round(lines: seq<Line>, from: nat, s: Scope, k: nat): (r: Option<(seq<Line>, nat)>)
    requires from + k <= |lines|
    ensures r.Some? ==> |r.value.0| == k
  {
    if k == 0 then Some(([], s.line))
    else
      var r := Round(lines, from, s, k - 1);
      if r.None? then None
      else
        var l := lines[from + k - 1];
        var i := InstructionText(s.(line := r.value.1), l.text);
        if i.None? || i.value.0 == ENDOP || |i.value.1| >= MAXALLCHAR then None
        else Some((r.value.0 + [Line(i.value.1, l.loc)], r.value.1 + if i.value.0 < OPNUM then 1 else 0))
  }

  lemma {:induction false} RoundBefore(lines: seq<Line>, from: nat, s: Scope, j: nat, k: nat)
    requires from + k <= |lines| && j <= k && Round(lines, from, s, k).Some?
    ensures Round(lines, from, s, j).Some?
  {
    hide InstructionText;
    if j < k {
      RoundBefore(lines, from, s, j, k - 1);
    }
  }

  lemma {:induction false} RofCloses(s: Scope, fuel: nat, t: string)
    requires s.Valid() && fuel > 0 && GetToken(t).0.kind.Char? && PseudoOf(GetToken(t).0.text).Rof?
    ensures LineStart(s, [], fuel, t, "") == Some(Closes)
  {
    hide GetToken;
  }

  /** The round after `k` of its lines. */
  function Partly(lines: seq<Line>, from: nat, p: Progress, k: nat): (q: Progress)
    requires p.Valid() && from + k <= |lines| && Round(lines, from, p.s, k).Some?
    ensures q.Valid() && q.at == from + k && q.open == p.open && q.expanded == p.expanded + k && q.s.refs == p.s.refs
    ensures q.passing == p.passing && |q.out| == |p.out| + k
  {
    var (out, line) := Round(lines, from, p.s, k).value;
    p.(s := p.s.(line := line), out := p.out + out, at := from + k, expanded := p.expanded + k)
  }

  lemma {:induction false} LineOfRound(lines: seq<Line>, fuel: nat, from: nat, p: Progress, k: nat)
    requires p.Valid() && p.open && p.passing == 0 && from + k < |lines| && fuel > |lines[from + k].text|
    requires Round(lines, from, p.s, k + 1).Some? && Round(lines, from, p.s, k).Some?
    ensures var q := Partly(lines, from, p, k);
            && LineStart(q.s, [], fuel, lines[q.at].text, "") != Some(Closes)
            && LineDone(lines, fuel, q.(expanded := q.expanded + 1)) == Some(Partly(lines, from, p, k + 1))
  {
    hide LineStart, InstructionText, ForDone, EquLines, Passed;
    var q := Partly(lines, from, p, k);
    InstructionStarts(q.s, [], fuel, lines[q.at].text);
    assert q.s.refs + [] == q.s.refs;
    var i := InstructionText(q.s, lines[q.at].text).value;
    var l := Line(i.1, lines[q.at].loc);
    var out := Round(lines, from, p.s, k).value.0;
    assert p.out + out + [l] == p.out + (out + [l]);
  }

  /** The round, its ROF passed. */
  function Ended(lines: seq<Line>, from: nat, rof: nat, p: Progress): Progress
    requires p.Valid() && from <= rof <= |lines| && Round(lines, from, p.s, rof - from).Some?
  {
    var q := Partly(lines, from, p, rof - from);
    q.(at := rof + 1, expanded := q.expanded + 1)
  }

  /** A round writes each of its lines once, as it stands in that round. */
  lemma {:induction false} RoundWrites(lines: seq<Line>, fuel: nat, from: nat, rof: nat, p: Progress, k: nat)
    requires Block(lines, fuel, from, rof) && p.Valid() && p.open && p.passing == 0 && k <= rof - from
    requires Round(lines, from, p.s, rof - from).Some? && Round(lines, from, p.s, k).Some?
    requires p.expanded + (rof - from) < MAX_EXPANSION
    ensures RoundDone(lines, fuel, Partly(lines, from, p, k)) == Some(Ended(lines, from, rof, p))
    decreases rof - k
  {
    hide RoundDone, LineDone, Partly, LineStart, Round;
    var q := Partly(lines, from, p, k);
    if k < rof - from {
      RoundBefore(lines, from, p.s, k + 1, rof - from);
      LineOfRound(lines, fuel, from, p, k);
      RoundGoesOn(lines, fuel, q, Partly(lines, from, p, k + 1));
      RoundWrites(lines, fuel, from, rof, p, k + 1);
    } else {
      RofCloses(q.s, fuel, lines[rof].text);
      RoundEnds(lines, fuel, q);
    }
  }

  lemma {:induction false} RoundGoesOn(lines: seq<Line>, fuel: nat, p: Progress, q: Progress)
    requires p.Valid() && p.at < |lines| && p.expanded < MAX_EXPANSION && q.Valid() && q.open
    requires LineDone(lines, fuel, p.(expanded := p.expanded + 1)) == Some(q)
    requires p.passing > 0 || LineStart(p.s, [], fuel, lines[p.at].text, "") != Some(Closes)
    ensures RoundDone(lines, fuel, p) == RoundDone(lines, fuel, q)
  {
    hide LineDone, LineStart;
  }

  lemma {:induction false} RoundEnds(lines: seq<Line>, fuel: nat, p: Progress)
    requires p.Valid() && p.at < |lines| && p.expanded < MAX_EXPANSION && p.passing == 0
    requires LineStart(p.s, [], fuel, lines[p.at].text, "") == Some(Closes)
    ensures RoundDone(lines, fuel, p) == Some(p.(at := p.at + 1, expanded := p.expanded + 1))
  {
    hide LineDone, LineStart;
  }

  // ---- all rounds ----

  /** Symbol `me` counting `n`. */
  function Counts(s: Scope, me: nat, n: nat): Scope
    requires me < |s.refs|
  {
    s.(refs := s.refs[me := s.refs[me].(kind := Counter(n))])
  }

  /** What rounds `n` to `limit` write, the counter at each of them in turn, and
      the number of the next instruction. */
  function Rounds(lines: seq<Line>, from: nat, rof: nat, s: Scope, me: nat, n: nat,
                  limit: nat): (r: Option<(seq<Line>, nat)>)
    requires from <= rof <= |lines| && me < |s.refs|
    decreases limit + 1 - n
  {
    if n > limit then Some(([], s.line))
    else
      var now := Round(lines, from, Counts(s, me, n), rof - from);
      if now.None? then None
      else
        var more := Rounds(lines, from, rof, Counts(s, me, n).(line := now.value.1), me, n + 1, limit);
        if more.None? then None else Some((now.value.0 + more.value.0, more.value.1))
  }

  /** Where rounds `n` to `limit` lead. */
  function After(lines: seq<Line>, from: nat, rof: nat, p: Progress, me: nat, n: nat, limit: nat): (q: Progress)
    requires from <= rof <= |lines| && me < |p.s.refs| && Rounds(lines, from, rof, p.s, me, n, limit).Some?
    requires n <= limit
    ensures p.Valid() && p.s.refs[me].kind.Counter? ==> q.Valid()
    ensures |q.s.refs| == |p.s.refs| && q.s.refs[me].kind.Counter? && q.at == rof + 1 && q.open == p.open
    ensures q.passing == p.passing && q.expanded == p.expanded + (limit + 1 - n) * (rof - from + 1)
  {
    var (out, line) := Rounds(lines, from, rof, p.s, me, n, limit).value;
    assert (limit + 1 - n) * (rof - from + 1) >= 0;
    p.(s := Counts(p.s, me, limit).(line := line), out := p.out + out, at := rof + 1,
       expanded := p.expanded + (limit + 1 - n) * (rof - from + 1))
  }

  /** The rounds that are left write the block once each, the counter at each of
      them in turn. */
  lemma {:induction false} RoundsWrite(lines: seq<Line>, fuel: nat, from: nat, rof: nat, p: Progress, me: nat, n: nat,
                                       limit: nat)
    requires Block(lines, fuel, from, rof) && p.Valid() && p.open && p.passing == 0 && n <= limit && p.at >= from
    requires from <= rof < |lines|
    requires me < |p.s.refs| && p.s.refs[me].kind.Counter? && Rounds(lines, from, rof, p.s, me, n, limit).Some?
    requires p.expanded + (limit + 1 - n) * (rof - from + 1) <= MAX_EXPANSION
    requires |p.out| + (limit + 1 - n) * (rof - from) <= MAX_LINES
    ensures RoundsDone(lines, fuel, p, me, from, n, limit) == Some(After(lines, from, rof, p, me, n, limit))
    decreases limit - n
  {
    hide RoundsDone, RoundDone, After, Block, Round, Progress.CountedTo;
    RoundSpends(limit + 1 - n, rof - from);
    RoundIs(lines, fuel, from, rof, p, me, n, limit);
    var q := After(lines, from, rof, p, me, n, n);
    RoundsGoOn(lines, fuel, p, me, from, n, limit, q);
    if n < limit {
      AfterOn(lines, from, rof, p, me, n, limit);
      RoundsWrite(lines, fuel, from, rof, q, me, n + 1, limit);
    } else {
      RoundsOver(lines, fuel, q, me, from, n + 1, limit);
    }
  }

  lemma {:induction false} RoundsGoOn(lines: seq<Line>, fuel: nat, p: Progress, me: nat, start: nat, n: nat,
                                      limit: nat, q: Progress)
    requires p.Valid() && me < |p.s.refs| && p.s.refs[me].kind.Counter? && p.at >= start && n <= limit
    requires q.Valid() && me < |q.s.refs| && q.s.refs[me].kind.Counter? && q.at >= start && |q.out| <= MAX_LINES
    requires RoundDone(lines, fuel, p.CountedTo(me, n).(at := start)) == Some(q)
    ensures RoundsDone(lines, fuel, p, me, start, n, limit) == RoundsDone(lines, fuel, q, me, start, n + 1, limit)
  {
    hide RoundDone;
  }

  lemma {:induction false} RoundsOver(lines: seq<Line>, fuel: nat, p: Progress, me: nat, start: nat, n: nat, limit: nat)
    requires p.Valid() && me < |p.s.refs| && p.s.refs[me].kind.Counter? && p.at >= start && n > limit
    ensures RoundsDone(lines, fuel, p, me, start, n, limit) == Some(p)
  {
    hide RoundDone;
  }

  /** One round, from wherever the one before ended. */
  lemma {:induction false} RoundIs(lines: seq<Line>, fuel: nat, from: nat, rof: nat, p: Progress, me: nat, n: nat,
                                   limit: nat)
    requires Block(lines, fuel, from, rof) && p.Valid() && p.open && p.passing == 0 && n <= limit
    requires me < |p.s.refs| && p.s.refs[me].kind.Counter? && Rounds(lines, from, rof, p.s, me, n, limit).Some?
    requires p.expanded + (rof - from + 1) <= MAX_EXPANSION
    ensures Rounds(lines, from, rof, p.s, me, n, n).Some?
    ensures RoundDone(lines, fuel, p.CountedTo(me, n).(at := from)) == Some(After(lines, from, rof, p, me, n, n))
    ensures |After(lines, from, rof, p, me, n, n).out| == |p.out| + (rof - from)
  {
    hide RoundDone, Round;
    var start := p.CountedTo(me, n).(at := from);
    NothingYet(lines, from, start.s);
    RoundWrites(lines, fuel, from, rof, start, 0);
    assert start.out + [] == start.out;
    var now := Round(lines, from, start.s, rof - from).value.0;
    assert now + [] == now;
  }

  lemma {:induction false} NothingYet(lines: seq<Line>, from: nat, s: Scope)
    requires from <= |lines|
    ensures Round(lines, from, s, 0) == Some(([], s.line))
  {
  }

  /** One round and the others. */
  lemma {:induction false} AfterOn(lines: seq<Line>, from: nat, rof: nat, p: Progress, me: nat, n: nat, limit: nat)
    requires from <= rof <= |lines| && me < |p.s.refs| && Rounds(lines, from, rof, p.s, me, n, limit).Some?
    requires n < limit && Rounds(lines, from, rof, p.s, me, n, n).Some?
    ensures var q := After(lines, from, rof, p, me, n, n);
            && Rounds(lines, from, rof, q.s, me, n + 1, limit).Some?
            && After(lines, from, rof, q, me, n + 1, limit) == After(lines, from, rof, p, me, n, limit)
  {
    hide Round;
    RoundSpends(limit + 1 - n, rof - from);
  }

  lemma RoundSpends(n: nat, m: nat)
    requires n >= 1
    ensures n * (m + 1) == (n - 1) * (m + 1) + m + 1 && n * m == (n - 1) * m + m && (n - 1) * (m + 1) >= 0
    ensures (n - 1) * m >= 0
  {
  }

  // ---- a whole FOR ----

  /** The symbols in a FOR: the labels before the last name the next instruction,
      the last names the counter. */
  function Heading(p: Progress, labels: seq<string>): (s: Scope)
    requires p.Valid()
    ensures s.Valid()
  {
    p.s.(refs := p.s.refs + Labelled(Others(labels), p.s.line))
  }

  function Within(s: Scope, labels: seq<string>): Scope {
    s.(refs := s.refs + [Ref(Last(labels), Counter(1), true)])
  }

  /** The last label before a FOR names the counter, which begins at 1, whatever it
      named before; the labels before it name the next instruction. */
  lemma ForNames(p: Progress, labels: seq<string>)
    requires p.Valid() && labels != []
    ensures var n, refs := |labels| - 1, Within(Heading(p, labels), labels).refs;
            && refs == p.s.refs + (if n > 0 then [Ref(labels[..n], Label(p.s.line), false)] else [])
                       + [Ref([labels[n]], Counter(1), true)]
            && Lookup(refs, labels[n]) == Some(|refs| - 1)
            && forall k :: 0 <= k < n && labels[k] != labels[n] ==> Lookup(refs, labels[k]) == Some(|refs| - 2)
  {
    hide Lookup;
    var n, refs := |labels| - 1, Within(Heading(p, labels), labels).refs;
    LookupIsNewest(refs, labels[n]);
    assert labels[n] in refs[|refs| - 1].names;
    forall k | 0 <= k < n && labels[k] != labels[n]
      ensures Lookup(refs, labels[k]) == Some(|refs| - 2)
    {
      LookupIsNewest(refs, labels[k]);
      assert labels[..n][k] == labels[k] && labels[k] in refs[|refs| - 2].names;
    }
  }

  /** A FOR goes round as often as its expression says, modulo 2^16: its lines are
      written for 1, 2, and so on, and its counter has no name any more behind
      it. */
  lemma {:induction false} ForWrites(lines: seq<Line>, fuel: nat, p: Progress, labels: seq<string>, expr: string,
                                     left: nat, z: string, rof: nat)
    requires p.Valid() && p.open && p.passing == 0 && p.at < |lines|
    requires LineStart(p.s, [], fuel, lines[p.at].text, "") == Some(Repeats(labels, expr, left))
    requires Operands(Heading(p, labels), false, left, expr, "") == Some(z)
    requires var e := EvalExpr(z, p.regs, p.save); e.0.Fine? && e.1 > 0 && e.1 % 0x1_0000 >= 1
    requires Block(lines, left, p.at + 1, rof)
    requires var s := Heading(p, labels);
             var limit := EvalExpr(z, p.regs, p.save).1 % 0x1_0000;
             && Rounds(lines, p.at + 1, rof, Within(s, labels), |s.refs|, 1, limit).Some?
             && p.expanded + limit * (rof - p.at) <= MAX_EXPANSION && |p.out| + limit * (rof - p.at - 1) <= MAX_LINES
    ensures var s := Heading(p, labels);
            var (_, times, st) := EvalExpr(z, p.regs, p.save);
            var start := p.(s := Within(s, labels), at := p.at + 1, regs := st.regs, save := st.save);
            LineDone(lines, fuel, p)
            == Some(Dropped(After(lines, p.at + 1, rof, start, |s.refs|, 1, times % 0x1_0000), |s.refs|))
  {
    hide LineStart, Operands, EvalExpr, Looped, After, Rounds, EquLines, Passed;
    var s := Heading(p, labels);
    var (status, times, st) := EvalExpr(z, p.regs, p.save);
    var head := p.(s := s, at := p.at + 1, regs := st.regs, save := st.save);
    LoopWrites(lines, left, head, labels, rof, times % 0x1_0000);
  }

  lemma {:induction false} LoopWrites(lines: seq<Line>, fuel: nat, p: Progress, labels: seq<string>, rof: nat,
                                      limit: nat)
    requires p.Valid() && p.open && p.passing == 0 && limit >= 1 && Block(lines, fuel, p.at, rof)
    requires Rounds(lines, p.at, rof, Within(p.s, labels), |p.s.refs|, 1, limit).Some?
    requires p.expanded + limit * (rof - p.at + 1) <= MAX_EXPANSION && |p.out| + limit * (rof - p.at) <= MAX_LINES
    ensures var start := p.(s := Within(p.s, labels));
            Looped(lines, fuel, p, Last(labels), limit)
            == Some(Dropped(After(lines, p.at, rof, start, |p.s.refs|, 1, limit), |p.s.refs|))
  {
    hide RoundsDone, After, Rounds;
    RoundsWrite(lines, fuel, p.at, rof, p.(s := Within(p.s, labels)), |p.s.refs|, 1, limit);
  }

  /** In round `n` the counter's name stands for its two digits. */
  lemma CounterStands(s: Scope, name: string, n: nat, pseudo: bool)
    requires Plainly(name)
    ensures Rewritten(Counts(Within(s, [name]), |s.refs|, n), pseudo, name) == Some(ShowTwo(n))
  {
    hide GetToken, Name, ShowNat;
    var now := Counts(Within(s, [name]), |s.refs|, n);
    assert name + "" == name && ShowTwo(n) + "" == ShowTwo(n);
    WordToken(name, "");
    NothingThere();
    CounterFound(s, name, n);
    WordAlone(now, pseudo, name, "");
  }

  lemma CounterFound(s: Scope, name: string, n: nat)
    ensures var now := Counts(Within(s, [name]), |s.refs|, n);
            now.refs == s.refs + [Ref([name], Counter(n), true)] && Lookup(now.refs, name) == Some(|s.refs|)
  {
  }

  /** A word alone. */
  lemma WordAlone(s: Scope, pseudo: bool, name: string, rest: string)
    requires GetToken(name + rest) == (Token(Char, name), rest) && Name(name)
    requires var n := Named(s.refs, name, rest); n.Some? && n.value.1 == ""
    ensures Rewritten(s, pseudo, name + rest) == Standing(s, pseudo, Named(s.refs, name, rest).value.0)
  {
    hide GetToken, ShowNat, Standing;
    NothingThere();
    var x := Standing(s, pseudo, Named(s.refs, name, rest).value.0);
    if x.Some? {
      assert Spaced(x.value, "") + "" == x.value;
    }
  }

  /** And `name&counter` is the name with those digits behind it. */
  lemma CounterAppends(s: Scope, word: string, name: string, n: nat, pseudo: bool)
    requires Plainly(word) && Plainly(name) && |word| + |ShowTwo(n)| < MAXALLCHAR
    ensures var now := Counts(Within(s, [name]), |s.refs|, n);
            Rewritten(now, pseudo, word + ("&" + name)) == Standing(now, pseudo, word + ShowTwo(n))
  {
    hide GetToken, Name, ShowNat, Standing;
    var now := Counts(Within(s, [name]), |s.refs|, n);
    assert name + "" == name && ("&" + name)[1..] == name;
    WordToken(name, "");
    WordToken(word, "&" + name);
    CounterFound(s, name, n);
    assert Named(now.refs, word + ShowTwo(n), "") == Some((word + ShowTwo(n), ""));
    assert Named(now.refs, word, "&" + name) == Some((word + ShowTwo(n), ""));
    WordAlone(now, pseudo, word, "&" + name);
  }

  /** Without symbols every round writes the same. */
  lemma {:induction false} PlainRound(lines: seq<Line>, from: nat, rof: nat, s: Scope, k: nat)
    requires from <= rof <= |lines| && k <= rof - from && Simple(lines[from..rof])
    ensures Round(lines, from, s, k)
            == Some((Written(lines[from..rof], k), s.line + Numbered(lines[from..rof], k)))
  {
    hide Statement, InstructionText, Simple;
    if k > 0 {
      PlainRound(lines, from, rof, s, k - 1);
      SimpleAt(lines[from..rof], k - 1);
      var line := s.line + Numbered(lines[from..rof], k - 1);
      PlainInstruction(s.(line := line), lines[from + k - 1].text);
      WrittenNext(lines[from..rof], k);
    }
  }

  // ---- a FOR that goes round no times ----

  /** The line behind the ROF that closes `open` FORs, counting FORs and ROFs from
      line `at` on. */
  function Behind(lines: seq<Line>, fuel: nat, at: nat, open: nat): (r: Option<nat>)
    ensures r.Some? ==> at <= r.value && (open > 0 ==> at < r.value <= |lines|)
    decreases |lines| - at
  {
    if open == 0 then Some(at)
    else if at >= |lines| then None
    else
      var n := Passed(fuel, lines[at].text, open);
      if n.None? then None else Behind(lines, fuel, at + 1, n.value)
  }

  /** The lines up to it are passed over, whatever they are: nothing is written,
      counted or defined. */
  lemma {:induction false} PassedOver(lines: seq<Line>, fuel: nat, p: Progress)
    requires p.Valid() && p.open && Behind(lines, fuel, p.at, p.passing).Some?
    ensures TextDone(lines, fuel, p)
            == TextDone(lines, fuel, p.(at := Behind(lines, fuel, p.at, p.passing).value, passing := 0))
    decreases |lines| - p.at
  {
    hide Passed, LineStart, TextDone;
    if p.passing > 0 {
      var q := p.(at := p.at + 1, passing := Passed(fuel, lines[p.at].text, p.passing).value);
      LinePassed(lines, fuel, p, q);
      PassedOver(lines, fuel, q);
    }
  }

  lemma {:induction false} LinePassed(lines: seq<Line>, fuel: nat, p: Progress, q: Progress)
    requires p.Valid() && p.open && p.passing > 0 && p.at < |lines|
    requires var n := Passed(fuel, lines[p.at].text, p.passing);
             n.Some? && q == p.(at := p.at + 1, passing := n.value)
    ensures TextDone(lines, fuel, p) == TextDone(lines, fuel, q) && LineDone(lines, fuel, p) == Some(q)
  {
    hide Passed, LineStart;
  }

  /** In a round they count against the allowance, and the round goes on behind
      them. */
  lemma {:induction false} PassedInRound(lines: seq<Line>, fuel: nat, p: Progress)
    requires p.Valid() && p.open && Behind(lines, fuel, p.at, p.passing).Some?
    requires p.expanded + (Behind(lines, fuel, p.at, p.passing).value - p.at) <= MAX_EXPANSION
    ensures var end := Behind(lines, fuel, p.at, p.passing).value;
            RoundDone(lines, fuel, p)
            == RoundDone(lines, fuel, p.(at := end, passing := 0, expanded := p.expanded + (end - p.at)))
    decreases |lines| - p.at
  {
    hide Passed, LineStart, RoundDone, TextDone;
    if p.passing > 0 {
      var now := p.(expanded := p.expanded + 1);
      var q := now.(at := p.at + 1, passing := Passed(fuel, lines[p.at].text, p.passing).value);
      LinePassed(lines, fuel, now, q);
      RoundGoesOn(lines, fuel, p, q);
      PassedInRound(lines, fuel, q);
    }
  }

  /** A FOR of zero or less goes on behind its own ROF; of its labels only the
      last is lost. */
  lemma {:induction false} ForPasses(lines: seq<Line>, fuel: nat, p: Progress, labels: seq<string>, expr: string,
                                     left: nat, z: string)
    requires p.Valid() && p.open && p.passing == 0 && p.at < |lines|
    requires LineStart(p.s, [], fuel, lines[p.at].text, "") == Some(Repeats(labels, expr, left))
    requires Operands(Heading(p, labels), false, left, expr, "") == Some(z)
    requires var e := EvalExpr(z, p.regs, p.save); e.0.Fine? && e.1 <= 0
    requires Behind(lines, fuel, p.at + 1, 1).Some?
    ensures var st := EvalExpr(z, p.regs, p.save).2;
            TextDone(lines, fuel, p)
            == TextDone(lines, fuel, p.(s := Heading(p, labels), at := Behind(lines, fuel, p.at + 1, 1).value,
                   regs := st.regs, save := st.save))
  {
    hide LineStart, Operands, EvalExpr, TextDone, Behind, Passed;
    var st := EvalExpr(z, p.regs, p.save).2;
    var q := p.(s := Heading(p, labels), at := p.at + 1, passing := 1, regs := st.regs, save := st.save);
    assert LineDone(lines, fuel, p) == Some(q);
    LineOn(lines, fuel, p, q);
    PassedOver(lines, fuel, q);
  }

  lemma {:induction false} LineOn(lines: seq<Line>, fuel: nat, p: Progress, q: Progress)
    requires p.Valid() && p.open && p.at < |lines| && q.Valid() && LineDone(lines, fuel, p) == Some(q)
    ensures TextDone(lines, fuel, p) == TextDone(lines, fuel, q)
  {
    hide LineDone;
  }

  // ---- EQU ----

  /** An EQU's labels name its lines from then on, whatever they named before. */
  lemma EquDefines(p: Progress, labels: seq<string>, body: seq<Line>, name: string)
    requires p.Valid() && body != [] && name in labels
    ensures var s := EquDone(p, labels, body).s;
            && Lookup(s.refs, name) == Some(|p.s.refs|) && s.refs[|p.s.refs|].kind == EquText(|p.s.lists|)
            && s.lists == p.s.lists + [body] && !s.refs[|p.s.refs|].visit
  {
    var refs := p.s.refs + [Ref(labels, EquText(|p.s.lists|), false)];
    assert refs[|refs| - 1].names == labels;
  }

  /** Among operands the name of an EQU of one line is its text, token by token,
      whatever follows. */
  lemma EquStands(s: Scope, pseudo: bool, fuel: nat, name: string, rest: string, dest: string)
    requires s.Valid() && Plainly(name) && Lookup(s.refs, name).Some? && !IsWord(Head(rest)) && Head(rest) != '&'
    requires var r := s.refs[Lookup(s.refs, name).value];
             && r.kind.EquText? && !r.visit && |s.lists[r.kind.list]| == 1
             && var body := s.lists[r.kind.list][0].text;
                Squeeze(body).Some? && |dest| + |Squeeze(body).value| < MAXALLCHAR && fuel > |body| + 1
    ensures var body := s.lists[s.refs[Lookup(s.refs, name).value].kind.list][0].text;
            Operands(s, pseudo, fuel, name + rest, dest)
            == Operands(s, pseudo, fuel - 1, rest, WithBlank(dest + Squeeze(body).value, rest))
  {
    hide Operands, GetToken, Squeeze, Lookup, Name;
    var k := Lookup(s.refs, name).value;
    var body := s.lists[s.refs[k].kind.list][0].text;
    WordToken(name, rest);
    PlainOperands(s.Marked(k), pseudo, fuel - 1, body, dest);
    NameMet(s, pseudo, fuel, name, rest, dest);
    assert OperandWord(s, pseudo, fuel - 1, name, rest, dest) == OperandName(s, pseudo, fuel - 1, name, rest, dest);
    assert OperandName(s, pseudo, fuel - 1, name, rest, dest) == OperandEqu(s, pseudo, fuel - 1, k, rest, dest);
  }

  lemma NameMet(s: Scope, pseudo: bool, fuel: nat, name: string, rest: string, dest: string)
    requires s.Valid() && fuel > 0 && GetToken(name + rest) == (Token(Char, name), rest) && Name(name)
    requires Head(rest) != '&'
    ensures Operands(s, pseudo, fuel, name + rest, dest) == OperandWord(s, pseudo, fuel - 1, name, rest, dest)
    ensures !PseudoOf(name).Curline? && Named(s.refs, name, rest) == Some((name, rest))
  {
    hide OperandWord, GetToken;
  }

  /** The lines of an EQU are its own and the EQU lines right behind it, the word
      taken off. */
  lemma {:induction false} EquLinesRead(lines: seq<Line>)
    ensures var n := |EquLines(lines)|;
            && n <= |lines|
            && (forall k :: 0 <= k < n ==>
                  var (tok, rest) := GetToken(lines[k].text);
                  Upper(tok.text) == "EQU" && EquLines(lines)[k] == Line(rest, lines[k].loc))
            && (n < |lines| ==> Upper(GetToken(lines[n].text).0.text) != "EQU")
  {
    hide GetToken, Upper;
    if lines != [] {
      EquLinesRead(lines[1..]);
    }
  }

  // ---- END and CURLINE ----

  /** An instruction is written and counted; ORG and PIN are only written; END is,
      and ends the text, whatever is behind it. */
  lemma LineCounts(lines: seq<Line>, fuel: nat, p: Progress, labels: seq<string>, op: nat, text: string)
    requires p.Valid() && p.open && p.passing == 0 && p.at < |lines| && op < EQUOP
    requires LineStart(p.s, [], fuel, lines[p.at].text, "") == Some(Opens(labels, op, text))
    ensures var s := p.s.(refs := p.s.refs + if labels == [] then [] else [Ref(labels, Label(p.s.line), false)],
                line := p.s.line + if OPNAME[op] in {"ORG", "END", "PIN"} then 0 else 1);
            var q := p.(s := s, out := p.out + [Line(text, lines[p.at].loc)], at := p.at + 1,
                        open := OPNAME[op] != "END");
            q.Valid() && TextDone(lines, fuel, p) == if OPNAME[op] == "END" then Some(q) else TextDone(lines, fuel, q)
  {
    hide LineStart;
    OpcodeNames(op);
    assert LineDone(lines, fuel, p) == Some(InstructionDone(p, labels, op, Line(text, lines[p.at].loc)));
  }

  lemma OpcodeNames(op: nat)
    requires op < EQUOP
    ensures op < OPNUM <==> OPNAME[op] !in {"ORG", "END", "PIN"}
    ensures op == ENDOP <==> OPNAME[op] == "END"
  {
    if op < OPNUM {
      OpcodeAt(op);
    } else {
      PseudoNames();
    }
  }

  /** Among operands CURLINE is the number of the instruction. */
  lemma CurlineStands(s: Scope, pseudo: bool, fuel: nat, rest: string, dest: string)
    requires s.Valid() && !IsWord(Head(rest)) && fuel > 0 && |dest| + |ShowNat(s.line)| + 1 < MAXALLCHAR
    ensures Operands(s, pseudo, fuel, "CURLINE" + rest, dest)
            == Operands(s, pseudo, fuel - 1, rest, dest + ShowNat(s.line) + if IsSpace(Head(rest)) then " " else "")
  {
    hide GetToken, Operands, IsWord, IsAlpha, AllWord, IsSpace, ShowNat;
    CapitalsAreWord("CURLINE");
    WordToken("CURLINE", rest);
    PseudoWordsRead("CURLINE");
    CurlineMet(s, pseudo, fuel, rest, dest);
    var n := ShowNat(s.line);
    var blank := if IsSpace(Head(rest)) then " " else "";
    assert dest + (n + blank) == dest + n + blank;
    assert Concat(dest, Spaced(n, rest)) == Some(dest + n + blank);
  }

  lemma CurlineMet(s: Scope, pseudo: bool, fuel: nat, rest: string, dest: string)
    requires s.Valid() && fuel > 0 && GetToken("CURLINE" + rest) == (Token(Char, "CURLINE"), rest)
    requires PseudoOf("CURLINE").Curline?
    ensures Operands(s, pseudo, fuel, "CURLINE" + rest, dest)
            == OperandsOn(s, pseudo, fuel - 1, rest, Concat(dest, Spaced(ShowNat(s.line), rest)))
  {
    hide GetToken, OperandName, OperandsOn, ShowNat, PseudoOf;
  }

  lemma CapitalsAreWord(s: string)
    requires s != "" && forall i :: 0 <= i < |s| ==> 'A' <= s[i] <= 'Z'
    ensures AllWord(s) && IsAlpha(s[0])
  {
  }

  /** A line passed over: ROF closes one, FOR opens one more, a name may be a label
      before either, and anything else is neither. */
  lemma PassedReads(fuel: nat, t: string, open: nat)
    requires open > 0 && fuel > 0
    ensures var (tok, rest) := GetToken(t);
            && (!tok.kind.Char? ==> Passed(fuel, t, open) == Some(open))
            && (tok.kind.Char? ==>
                  match Upper(tok.text)
                  case "ROF" => Passed(fuel, t, open) == Some(open - 1)
                  case "FOR" => Passed(fuel, t, open) == Some(open + 1)
                  case up =>
                    Passed(fuel, t, open)
                    == if tok.text == "CURLINE" || up == "EQU" || up in OPNAME then Some(open)
                       else Passed(fuel - 1, rest, open))
  {
    hide GetToken, Upper, PseudoOf;
    var word := GetToken(t).0.text;
    PseudoWordsRead(word);
    NamedThere(OPNAME, Upper(word));
    assert PseudoOf(word).Other? || PseudoOf(word).Rof? || PseudoOf(word).For? || PseudoOf(word).Equ?
      || PseudoOf(word).Curline?;
  }

  lemma {:induction false} NamedThere(names: seq<string>, s: string)
    ensures Position(names, s) < |names| <==> s in names
  {
    if names != [] {
      NamedThere(names[1..], s);
      assert names == [names[0]] + names[1..];
    }
  }
}
