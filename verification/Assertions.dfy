/** What an assertion means to a source (src/asm.rs:1299-1320). */
module Assertions {
  import opened Redcode
  import opened Configs
  import opened Text
  import opened Evaluator
  import opened Expressions
  import opened AsmText
  import opened Symbols
  import opened Labels
  import opened Assembler
  import opened Expansion
  import opened Chains
  import opened Listings

  /** A semicolon, the word in any case, and what the expression is rewritten to. */
  lemma AssertionStarts(s: Scope, fuel: nat, word: string, expr: string, z: string)
    requires s.Valid() && word != "" && AllWord(word) && IsAlpha(word[0]) && Upper(word) == "ASSERT"
    requires !IsWord(Head(expr)) && fuel > 0 && Operands(s, false, fuel - 1, expr, "") == Some(z)
    ensures LineStart(s, [], fuel, ";" + (word + expr), "") == Some(Asserts(z))
  {
    hide Operands, Upper, LineWord;
    WordToken(word, expr);
    var t := ";" + (word + expr);
    assert t[1..] == word + expr;
  }

  /** One that is false refuses the source, whatever comes after it; one that is
      true lets what comes after it decide. */
  lemma AssertionDecides(cfg: Config, lines: seq<Line>, p: Progress, z: string)
    requires p.Valid() && p.at < |lines| && p.open && p.passing == 0
    requires LineStart(p.s, [], MAX_DEPTH, lines[p.at].text, "") == Some(Asserts(z))
    requires EvalExpr(z, p.regs, p.save).0 == Fine
    ensures var (status, v, st) := EvalExpr(z, p.regs, p.save);
            var q := p.(at := p.at + 1, regs := st.regs, save := st.save, unchecked := false);
            if v == 0 then Denies(lines, MAX_DEPTH, p)
            else
              q.Valid() && TextDone(lines, MAX_DEPTH, p) == TextDone(lines, MAX_DEPTH, q)
              && Denies(lines, MAX_DEPTH, p) == Denies(lines, MAX_DEPTH, q)
  {
    hide LineStart, EvalExpr;
  }

  // ---- the core size ----

  /** Words of more than three characters are names, but for CURLINE. */
  lemma LongIsName(name: string)
    requires |name| > 3 && name != "CURLINE"
    ensures Name(name)
  {
    PseudoWordsRead(name);
    assert forall k: nat :: k < EQUOP ==> |OPNAME[k]| == 3;
  }

  lemma CoresizeIsName()
    ensures Plainly("CORESIZE")
  {
    hide Name, AllWord, IsWord, IsAlpha;
    var s := "CORESIZE";
    assert |s| == 8 && |"CURLINE"| == 7;
    LongIsName(s);
    CapitalsAreWord(s);
  }

  lemma CoresizeFound(cfg: Config)
    requires cfg.coreSize >= 1
    ensures Lookup(PredefRefs(cfg, 9), "CORESIZE") == Some(0)
  {
    hide PredefRefs, PredefLists, Lookup;
    var r, s := PredefRefs(cfg, 9), "CORESIZE";
    PredefsRead(cfg);
    LookupIsNewest(r, s);
    assert r[0].names[0] == s;
    assert s[0] != "VERSION"[0] && s[0] != "ROUNDS"[0];
    assert |s| == 8 && |"WARRIORS"| == 8 && "WARRIORS"[0] == 'W';
    forall k | 1 <= k < 9
      ensures s !in r[k].names
    {
    }
  }

  lemma EqualsIs(x: nat, y: nat, regs: seq<int>, save: nat)
    requires x <= MAX && y <= MAX && St(regs, save, Fine).Valid()
    ensures EvalExpr(ShowNat(x) + ("==" + ShowNat(y)), regs, save) == (Fine, if x == y then 1 else 0, St(regs, 0, Fine))
  {
    hide Calc, EvalExpr, Spelled, Value, StatusAfter;
    NumberTree(x);
    NumberTree(y);
    var l, r := Lit("", ShowNat(x)), Lit("", ShowNat(y));
    EvaluatesPair(l, "", Equals, r, "", regs, save);
    assert OpText(Equals) == "==" && ShowNat(y) + "" == ShowNat(y);
    assert "" + ("==" + ShowNat(y)) == "==" + ShowNat(y);
    PairValue(l, Equals, r);
    StatusIs(Pair("", l, "", Equals, r, ""), Fine);
  }

  /** What the assertion is rewritten to: the core size itself in place of its
      name. */
  lemma CoresizeRewrites(cfg: Config, s: Scope, n: nat)
    requires 1 <= cfg.coreSize <= MAX && n <= MAX && s.Valid() && s.refs == PredefRefs(cfg, 9)
    requires |s.lists| == 10 && s.lists[1..] == PredefLists(cfg, 9)
    ensures Operands(s, false, MAX_DEPTH - 1, " " + ("CORESIZE" + ("==" + ShowNat(n))), "")
            == Some(ShowNat(cfg.coreSize) + ("==" + ShowNat(n)))
  {
    hide Operands, GetToken, Squeeze, Lookup, Name, Plainly, PredefRefs, PredefLists, ShowNat, WithBlank;
    var size, tail := ShowNat(cfg.coreSize), "==" + ShowNat(n);
    PredefsRead(cfg);
    CoresizeFound(cfg);
    CoresizeIsName();
    assert s.lists[1] == s.lists[1..][0];
    NumbersFit(cfg.coreSize);
    NumbersFit(n);
    TailSqueezes(n);
    SpaceAside(s, "CORESIZE" + tail);
    EquStands(s, false, MAX_DEPTH - 1, "CORESIZE", tail, "");
    assert "" + size == size;
    NoBlank(size, n);
    PlainOperands(s, false, MAX_DEPTH - 2, tail, size);
  }

  lemma NumbersFit(n: nat)
    requires n <= MAX
    ensures |ShowNat(n)| <= 19 && Squeeze(ShowNat(n)) == Some(ShowNat(n))
  {
    hide Squeeze, ShowNat;
    assert Ten(9) == 1_000_000_000 && Ten(14) == 100_000 * Ten(9) && Ten(19) == 100_000 * Ten(14);
    ShowNatIsShort(n, 19);
    SqueezeEnds();
    SqueezeNat(n, "");
    assert ShowNat(n) + "" == ShowNat(n);
  }

  lemma SqueezeEnds()
    ensures Squeeze("") == Some("")
  {
  }

  lemma TailSqueezes(n: nat)
    requires n <= MAX
    ensures Squeeze("==" + ShowNat(n)) == Some("==" + ShowNat(n))
  {
    hide Squeeze, ShowNat, GetToken;
    NumbersFit(n);
    var t := ShowNat(n);
    EqualsToken(t);
    EqualsToken("=" + t);
    assert "" + ("=" + t) == "=" + t && "" + ("=" + ("=" + t)) == "==" + t && "=" + ("=" + t) == "==" + t;
    SqueezeOne("", Token(Expr, "="), t, "=" + t);
    SqueezeOne("", Token(Expr, "="), "=" + t, "=" + ("=" + t));
  }

  lemma EqualsToken(t: string)
    ensures GetToken("=" + t) == (Token(Expr, "="), t)
  {
    assert ("=" + t)[0] == '=' && ("=" + t)[1..] == t && "=" == ['='];
  }

  lemma SpaceAside(s: Scope, t: string)
    requires s.Valid()
    ensures Operands(s, false, MAX_DEPTH - 1, " " + t, "") == Operands(s, false, MAX_DEPTH - 1, t, "")
  {
    hide GetToken, OperandWord, OperandsOn;
    TokenSkips(" ", t);
  }

  lemma NoBlank(d: string, n: nat)
    ensures var tail := "==" + ShowNat(n);
            WithBlank(d, tail) == d && !IsWord(Head(tail)) && Head(tail) != '&'
  {
    assert ("==" + ShowNat(n))[0] == '=';
  }

  /** `;assert CORESIZE==n` as the first line refuses the source on cores of any
      other size, and on one of this size changes nothing for the lines after it. */
  lemma CoresizeAsserted(cfg: Config, n: nat, loc: nat, rest: seq<Line>)
    requires cfg.Check(2) == Accepted && cfg.warriors <= 0xFFFF_FFFF && n <= MAX
    ensures var lines := [Line(";" + ("assert" + (" " + ("CORESIZE" + ("==" + ShowNat(n))))), loc)] + rest;
            var p := Started(cfg, lines);
            if n == cfg.coreSize then
              TextDone(lines, MAX_DEPTH, p) == TextDone(lines, MAX_DEPTH, p.(at := 1, unchecked := false))
            else Rejects(cfg, lines)
  {
    hide Operands, EvalExpr, LineStart, PredefRefs, PredefLists, StartRegisters, ShowNat, TextDone, Denies;
    var text := ";" + ("assert" + (" " + ("CORESIZE" + ("==" + ShowNat(n)))));
    var lines := [Line(text, loc)] + rest;
    var p := Started(cfg, lines);
    CheckedBounds(cfg);
    PredefsRead(cfg);
    assert p.s.lists[1..] == PredefLists(cfg, 9);
    CoresizeRewrites(cfg, p.s, n);
    AssertIsWord();
    var z := ShowNat(cfg.coreSize) + ("==" + ShowNat(n));
    AssertionStarts(p.s, MAX_DEPTH, "assert", " " + ("CORESIZE" + ("==" + ShowNat(n))), z);
    EqualsIs(cfg.coreSize, n, p.regs, 0);
    AssertionDecides(cfg, lines, p, z);
  }

  lemma AssertIsWord()
    ensures AllWord("assert") && IsAlpha("assert"[0]) && Upper("assert") == "ASSERT"
  {
    var s := "assert";
    assert forall i :: 0 <= i < |s| ==> 'a' <= s[i] <= 'z';
    assert UpperChar(s[0]) == 'A' && UpperChar(s[1]) == 'S' && UpperChar(s[2]) == 'S';
    assert UpperChar(s[3]) == 'E' && UpperChar(s[4]) == 'R' && UpperChar(s[5]) == 'T';
    assert Upper(s) == "ASSERT";
  }
}
