/** What labels mean: whichever pass resolves the labels of an instruction, the
    automaton collects the same parts, and the numbers lead to the labels
    (src/asm.rs:1414-1476, 1501-1572). */
module Labels {
  import Bits
  import opened Redcode
  import opened Text
  import opened Evaluator
  import opened AsmText
  import opened Symbols
  import opened Listings

  // ---- operands in pass 1 ----

  /** A name in pass 1: a symbol's number, or itself where it is no symbol yet;
      nothing for an EQU. */
  function Standing(s: Scope, pseudo: bool, name: string): Option<string> {
    var found := Lookup(s.refs, name);
    if found.None? then Some(name)
    else if s.refs[found.value].kind.EquText? then None
    else Some(Shown(s.refs[found.value].kind, s.line, pseudo))
  }

  /** What pass 1 makes of operands without EQUs: token by token, names replaced
      by what they stand for. */
  function Rewritten(s: Scope, pseudo: bool, t: string): Option<string>
    decreases |t|
  {
    var (tok, rest) := GetToken(t);
    if tok.kind.End? then Some("")
    else if tok.kind.Comm? then None
    else if !tok.kind.Char? then Prefixed(tok.text, Rewritten(s, pseudo, rest))
    else if PseudoOf(tok.text).Curline? then Prefixed(Spaced(ShowNat(s.line), rest), Rewritten(s, pseudo, rest))
    else if !Name(tok.text) then None
    else
      var n := Named(s.refs, tok.text, rest);
      if n.None? then None
      else
        var z := Standing(s, pseudo, n.value.0);
        if z.None? then None else Prefixed(Spaced(z.value, n.value.1), Rewritten(s, pseudo, n.value.1))
  }

  function Prefixed(x: string, y: Option<string>): Option<string> {
    if y.None? then None else Some(x + y.value)
  }

  /** The operands a line of 255 characters has room for are rewritten so. */
  lemma {:induction false} OperandsAreRewritten(s: Scope, pseudo: bool, fuel: nat, t: string, dest: string)
    requires s.Valid() && fuel > |t|
    requires var z := Rewritten(s, pseudo, t); z.Some? && |dest| + |z.value| < MAXALLCHAR
    ensures Operands(s, pseudo, fuel, t, dest) == Some(dest + Rewritten(s, pseudo, t).value)
    decreases |t|, 0
  {
    hide GetToken, ShowNat, PseudoOf, Name, Named, Standing, OperandWord;
    var (tok, rest) := GetToken(t);
    if tok.kind.End? {
      assert dest + "" == dest;
    } else if !tok.kind.Char? {
      PieceRewritten(s, pseudo, fuel - 1, tok.text, rest, dest);
    } else {
      WordRewritten(s, pseudo, fuel - 1, tok.text, rest, dest);
      if PseudoOf(tok.text).Curline? {
        PieceRewritten(s, pseudo, fuel - 1, Spaced(ShowNat(s.line), rest), rest, dest);
      } else {
        var n := Named(s.refs, tok.text, rest).value;
        PieceRewritten(s, pseudo, fuel - 1, Spaced(Standing(s, pseudo, n.0).value, n.1), n.1, dest);
      }
    }
  }

  lemma WordRewritten(s: Scope, pseudo: bool, fuel: nat, word: string, rest: string, dest: string)
    requires s.Valid()
    ensures PseudoOf(word).Curline? ==>
              OperandWord(s, pseudo, fuel, word, rest, dest)
              == OperandsOn(s, pseudo, fuel, rest, Concat(dest, Spaced(ShowNat(s.line), rest)))
    ensures var n := Named(s.refs, word, rest);
            !PseudoOf(word).Curline? && Name(word) && n.Some? && Standing(s, pseudo, n.value.0).Some? ==>
              OperandWord(s, pseudo, fuel, word, rest, dest)
              == OperandsOn(s, pseudo, fuel, n.value.1,
                   Concat(dest, Spaced(Standing(s, pseudo, n.value.0).value, n.value.1)))
  {
    hide ShowNat, PseudoOf, Name, Named, Shown, OperandsOn, Lookup;
  }

  lemma PieceRewritten(s: Scope, pseudo: bool, fuel: nat, x: string, rest: string, dest: string)
    requires s.Valid() && fuel > |rest|
    requires var z := Rewritten(s, pseudo, rest); z.Some? && |dest| + |x + z.value| < MAXALLCHAR
    ensures OperandsOn(s, pseudo, fuel, rest, Concat(dest, x))
            == Some(dest + (x + Rewritten(s, pseudo, rest).value))
    decreases |rest|, 1
  {
    hide Operands, Rewritten;
    OperandsAreRewritten(s, pseudo, fuel, rest, dest + x);
    var z := Rewritten(s, pseudo, rest).value;
    assert dest + x + z == dest + (x + z);
  }

  /** An instruction as pass 1 writes it, no EQU among its operands: opcode number
      and text. */
  function InstructionText(s: Scope, t: string): Option<(nat, string)> {
    var (tok, rest) := GetToken(t);
    var op := OpIndex(Upper(tok.text));
    if !tok.kind.Char? || op == EQUOP then None
    else
      var (run, rest2) := Run(rest);
      var z := Rewritten(s, op >= OPNUM, rest2);
      if z.None? then None else Some((op, Spaced(Upper(tok.text) + run, rest2) + z.value))
  }

  lemma InstructionStarts(s: Scope, labels: seq<string>, fuel: nat, t: string)
    requires s.Valid() && fuel > |t|
    requires var i := InstructionText(s, t); i.Some? && |i.value.1| < MAXALLCHAR
    ensures var (op, text) := InstructionText(s, t).value;
            LineStart(s, labels, fuel, t, "") == Some(Opens(labels, op, text))
  {
    hide GetToken, OpIndex, Operands, PseudoOf, Rewritten;
    var (tok, rest) := GetToken(t);
    var (run, rest2) := Run(rest);
    var head := Spaced(Upper(tok.text) + run, rest2);
    assert "" + head == head;
    OpcodeIsNoPseudo(tok.text);
    OperandsAreRewritten(s, OpIndex(Upper(tok.text)) >= OPNUM, fuel - 1, rest2, head);
  }

  /** Without names an instruction is the same wherever it stands. */
  lemma PlainInstruction(s: Scope, t: string)
    requires Statement(t).Some?
    ensures InstructionText(s, t) == Statement(t)
  {
    hide GetToken, OpIndex, Squeeze, Rewritten;
    var (tok, rest) := GetToken(t);
    PlainRewrites(s, OpIndex(Upper(tok.text)) >= OPNUM, Run(rest).1);
  }

  lemma {:induction false} PlainRewrites(s: Scope, pseudo: bool, t: string)
    requires Squeeze(t).Some?
    ensures Rewritten(s, pseudo, t) == Squeeze(t)
    decreases |t|
  {
    hide GetToken;
    var (tok, rest) := GetToken(t);
    if !tok.kind.End? {
      PlainRewrites(s, pseudo, rest);
    }
  }

  // ---- numbers and names in pass 2 ----

  /** A name that can only be a symbol's. */
  predicate Plainly(name: string) {
    name != "" && |name| < MAXALLCHAR && AllWord(name) && IsAlpha(name[0]) && Name(name)
  }

  /** The symbol of this name is the label of instruction `v`. */
  predicate IsLabel(refs: seq<Ref>, name: string, v: nat) {
    var found := Lookup(refs, name);
    found.Some? && refs[found.value].kind == Label(v) && !refs[found.value].visit
  }

  /** The differences of the source's 32-bit instruction numbers. */
  predicate Near(d: int) {
    -0x1_0000_0000 < d < 0x1_0000_0000
  }

  lemma NearIsShort(d: int)
    requires Near(d)
    ensures |ShowInt(d)| <= 11
  {
    ShowNatIsShort(if d < 0 then -d else d, 10);
  }

  predicate AtField(at: Where) {
    at.AtExpFs? || at.AtExpr?
  }

  /** The state in which the operand of a state is collected. */
  function FieldOf(at: Where): Where {
    if at.AtAddrExpB? || at.AtExpr? then AtExpr else AtExpFs
  }

  /** The parts with the number `d` collected. */
  function Gathered(p: Parts, at: Where, d: int): Option<Parts> {
    Collect(p.(last := FieldOf(at)), FieldOf(at), NumText(d))
  }

  /** The steps the number takes. */
  function Steps(at: Where, d: int): nat {
    (if AtOperand(at) then 1 else 0) + if d < 0 then 2 else 1
  }

  /** A number where a field is collected, whatever is behind it. */
  lemma NumberInField(s: Scope, fuel: nat, d: int, u: string, at: Where, p: Parts)
    requires s.Valid() && AtField(at) && Near(d) && !IsDigit(Head(u)) && fuel > 2
    ensures ScanOn(s, fuel, ShowInt(d) + u, at, p)
            == var c := Gathered(p, at, d); if c.None? then None else ScanOn(s, fuel - Steps(at, d), u, at, c.value)
  {
    hide ScanOn, GetToken, ShowNat;
    NearIsShort(d);
    var digits := ShowNat(if d < 0 then -d else d);
    NumberToken(digits, u);
    if d < 0 {
      SymbolToken('-', digits + u);
      assert "-" + (digits + u) == ShowInt(d) + u;
      MoveScans(s, fuel, "-" + (digits + u), Token(Expr, "-"), digits + u, at, p);
      var q := Collect(p.(last := at), at, "-");
      if q.Some? {
        MoveScans(s, fuel - 1, digits + u, Token(Numb, digits), u, at, q.value);
      }
      TwoPieces(p, at, "-", digits + " ");
      assert "-" + (digits + " ") == NumText(d);
    } else {
      MoveScans(s, fuel, digits + u, Token(Numb, digits), u, at, p);
    }
  }

  /** The text of a token as the field takes it; numbers are set apart. */
  function Piece(tok: Token): string {
    if tok.kind.Numb? then tok.text + " " else tok.text
  }

  /** What a token that is no word does; where an operand starts, a number or an
      operator belongs to its field already. */
  function Moves(tok: Token, at: Where, p: Parts): (r: Option<(Where, Parts)>)
    requires AtField(at) || AtOperand(at)
    ensures r.Some? ==> (AtField(r.value.0) || AtOperand(r.value.0)) && r.value.1.opcode == p.opcode
    ensures r.Some? && PseudoFits(p, at) ==> PseudoFits(r.value.1, r.value.0)
  {
    var q := p.(last := at);
    if AtOperand(at) then
      if tok.kind.Addr? && tok.text != "" then Some((FieldOf(at), WithMode(q.(filled := false), at, tok.text[0])))
      else None
    else if tok.kind.Fsep? && at.AtExpFs? then Some((AtAddrExpB, q))
    else if tok.kind.Expr? || tok.kind.Numb? || (tok.kind.Addr? && tok.text != "" && tok.text[0] in "><*") then
      var c := Collect(q, at, Piece(tok));
      if c.None? then None else Some((at, c.value))
    else None
  }

  lemma MoveScans(s: Scope, fuel: nat, t: string, tok: Token, rest: string, at: Where, p: Parts)
    requires s.Valid() && (AtField(at) || AtOperand(at)) && GetToken(t) == (tok, rest) && fuel > 0
    requires tok.kind.Expr? || tok.kind.Numb? || tok.kind.Addr? || tok.kind.Fsep?
    requires AtOperand(at) ==> tok.kind.Addr? || tok.kind.Fsep?
    ensures ScanOn(s, fuel, t, at, p)
            == var m := Moves(tok, at, p); if m.None? then None else ScanOn(s, fuel - 1, rest, m.value.0, m.value.1)
  {
    hide GetToken, ModeOf;
  }

  lemma TwoPieces(p: Parts, at: Where, x: string, y: string)
    requires AtField(at)
    ensures var c := Collect(p.(last := at), at, x);
            Collect(p.(last := at), at, x + y)
            == if c.None? then None else Collect(c.value.(last := at), at, y)
  {
    var e := if at.AtExpr? then p.bExpr else p.aExpr;
    assert e + (x + y) == e + x + y;
  }

  /** And where an operand starts. */
  lemma NumberScans(s: Scope, fuel: nat, d: int, u: string, at: Where, p: Parts)
    requires s.Valid() && (AtField(at) || AtOperand(at)) && Near(d) && !IsDigit(Head(u)) && fuel > 3
    ensures ScanOn(s, fuel, ShowInt(d) + u, at, p)
            == var c := Gathered(p, at, d);
               if c.None? then None else ScanOn(s, fuel - Steps(at, d), u, FieldOf(at), c.value)
  {
    hide ScanOn, GetToken, ShowNat;
    if AtField(at) {
      NumberInField(s, fuel, d, u, at, p);
    } else {
      NumberStarts(s, fuel, d, u, at, p);
      NumberInField(s, fuel - 1, d, u, FieldOf(at), p.(last := at, filled := false));
    }
  }

  /** Where an operand starts, a number or an operator belongs to its field. */
  lemma {:induction false} StartsField(s: Scope, fuel: nat, t: string, at: Where, p: Parts)
    requires s.Valid() && AtOperand(at) && fuel > 0 && (GetToken(t).0.kind.Numb? || GetToken(t).0.kind.Expr?)
    ensures ScanOn(s, fuel, t, at, p) == ScanOn(s, fuel - 1, t, FieldOf(at), p.(last := at, filled := false))
  {
    hide GetToken;
  }

  lemma {:induction false} NumberStarts(s: Scope, fuel: nat, d: int, u: string, at: Where, p: Parts)
    requires s.Valid() && AtOperand(at) && !IsDigit(Head(u)) && fuel > 0
    ensures ScanOn(s, fuel, ShowInt(d) + u, at, p)
            == ScanOn(s, fuel - 1, ShowInt(d) + u, FieldOf(at), p.(last := at, filled := false))
  {
    hide GetToken, ShowNat, ScanOn;
    var digits := ShowNat(if d < 0 then -d else d);
    NumberToken(digits, u);
    if d < 0 {
      SymbolToken('-', digits + u);
      assert "-" + (digits + u) == ShowInt(d) + u;
    }
    StartsField(s, fuel, ShowInt(d) + u, at, p);
  }

  /** What the number of label `v` is for an instruction's operand, and behind a
      pseudo-opcode. */
  function Number(v: nat, line: nat, pseudo: bool): int {
    if pseudo then v else v - line
  }

  /** ORG, END and PIN have one expression. */
  predicate PseudoFits(p: Parts, at: Where) {
    p.opcode >= OPNUM ==> at.AtExpr?
  }

  /** A label's name is collected as its number. */
  lemma NameScans(s: Scope, fuel: nat, t: string, name: string, u: string, v: nat, at: Where, p: Parts)
    requires s.Valid() && GetToken(t) == (Token(Char, name), u) && IsLabel(s.refs, name, v) && fuel > 5
    requires (AtField(at) || AtOperand(at)) && PseudoFits(p, at) && Near(Number(v, s.line, p.opcode >= OPNUM))
    ensures ScanOn(s, fuel, t, at, p)
            == var c := Gathered(p, at, Number(v, s.line, p.opcode >= OPNUM));
               if c.None? then None else ScanOn(s, fuel - 1, u, FieldOf(at), c.value)
  {
    hide ScanOn, GetToken, ShowNat, Lookup;
    var d := Number(v, s.line, p.opcode >= OPNUM);
    var k := Lookup(s.refs, name).value;
    var q := p.(last := at, filled := AtField(at) && p.filled);
    assert ShowInt(d) + "" == ShowInt(d);
    NumberScans(s.Marked(k), fuel - 1, d, "", at, q);
    var c := Gathered(p, at, d);
    if c.Some? {
      NothingThere();
      EndScans(s.Marked(k), fuel - 1 - Steps(at, d), "", FieldOf(at), c.value);
    }
    WordScans(s, fuel, t, name, u, at, p);
  }

  lemma WordScans(s: Scope, fuel: nat, t: string, name: string, u: string, at: Where, p: Parts)
    requires s.Valid() && (AtField(at) || AtOperand(at)) && fuel > 0 && GetToken(t) == (Token(Char, name), u)
    ensures ScanOn(s, fuel, t, at, p)
            == if AtField(at) then ScanWord(s, fuel - 1, u, name, at, p.(last := at))
               else ScanSymbol(s, fuel - 1, t, u, name, at, FieldOf(at), p.(last := at, filled := false))
  {
    hide GetToken, ScanWord, ScanSymbol;
  }

  // ---- both passes ----

  /** A name means the same in both passes: no symbol in either, or a label that
      pass 1 knows or does not know yet. */
  predicate Knows(early: Scope, late: Scope, pseudo: bool, name: string) {
    var found := Lookup(late.refs, name);
    if found.None? then Lookup(early.refs, name).None?
    else
      && late.refs[found.value].kind.Label? && !late.refs[found.value].visit
      && Near(Number(late.refs[found.value].kind.at, late.line, pseudo))
      && (Lookup(early.refs, name).None? || IsLabel(early.refs, name, late.refs[found.value].kind.at))
  }

  /** A FOR counter is to be appended to the name before this. */
  predicate Appends(rest: string) {
    Head(rest) == '&' && IsAlpha(Head(Tail(rest)))
  }

  /** Operands of labels, numbers, operators, modes and commas, in any order, but
      for a number with another or a name right behind it, which pass 1 would
      write together. */
  predicate Resolves(early: Scope, late: Scope, pseudo: bool, t: string)
    decreases |t|
  {
    var (tok, rest) := GetToken(t);
    match tok.kind
    case End => true
    case Char =>
      Name(tok.text) && !Appends(rest) && Knows(early, late, pseudo, tok.text) && Resolves(early, late, pseudo, rest)
    case Numb =>
      var next := GetToken(rest).0.kind;
      !next.Numb? && !next.Char? && Resolves(early, late, pseudo, rest)
    case Expr => Resolves(early, late, pseudo, rest)
    case Addr => Resolves(early, late, pseudo, rest)
    case Fsep => Resolves(early, late, pseudo, rest)
    case _ => false
  }

  /** They are rewritten. */
  lemma {:induction false} ResolvesRewrites(early: Scope, late: Scope, pseudo: bool, t: string)
    requires Resolves(early, late, pseudo, t)
    ensures Rewritten(early, pseudo, t).Some?
    decreases |t|
  {
    hide GetToken, Name, ShowNat, Knows, Standing;
    var (tok, rest) := GetToken(t);
    if !tok.kind.End? {
      ResolvesRewrites(early, late, pseudo, rest);
      if tok.kind.Char? {
        KnownStands(early, late, pseudo, tok.text, rest);
      }
    }
  }

  /** A name both passes know, in pass 1. */
  lemma KnownStands(early: Scope, late: Scope, pseudo: bool, name: string, rest: string)
    requires Knows(early, late, pseudo, name) && Name(name) && !Appends(rest)
    ensures PseudoOf(name).Other? && Named(early.refs, name, rest) == Some((name, rest))
    ensures early.line == late.line ==>
              Standing(early, pseudo, name)
              == Some(if Lookup(early.refs, name).None? then name
                      else ShowInt(Number(late.refs[Lookup(late.refs, name).value].kind.at, late.line, pseudo)))
    ensures Standing(early, pseudo, name).Some?
  {
  }

  /** What is behind a name or a number does not run into it. */
  lemma StandsApart(early: Scope, late: Scope, pseudo: bool, rest: string)
    requires Resolves(early, late, pseudo, rest) && !IsWord(Head(rest)) && Rewritten(early, pseudo, rest).Some?
    ensures !IsWord(Head(Spaced("", rest) + Rewritten(early, pseudo, rest).value))
  {
    hide GetToken, Name, ShowNat, Knows, Standing;
    var (tok, after) := GetToken(rest);
    var z := Rewritten(early, pseudo, rest).value;
    if IsSpace(Head(rest)) {
      assert (Spaced("", rest) + z)[0] == ' ';
    } else {
      TokenReads(rest);
      assert Spaced("", rest) + z == z;
    }
  }

  /** A symbol is read whole, whatever is behind it. */
  lemma SymbolReads(t: string, u: string)
    requires var k := GetToken(t).0.kind; k.Expr? || k.Addr? || k.Fsep?
    ensures GetToken(GetToken(t).0.text + u) == (GetToken(t).0, u)
  {
    var tok := GetToken(t).0;
    var x := tok.text + u;
    assert x[0] == tok.text[0];
    if |tok.text| == 1 {
      assert x[1..] == u;
    } else {
      assert x[1..] == tok.text[1..] + u && x[2..] == u;
    }
  }

  /** White space in front makes no difference. */
  lemma BlankScans(s: Scope, fuel: nat, t: string, at: Where, p: Parts)
    requires s.Valid() && (AtField(at) || AtOperand(at))
    ensures ScanOn(s, fuel, " " + t, at, p) == ScanOn(s, fuel, t, at, p)
  {
    hide GetToken, ScanOn;
    if AtField(at) || fuel == 0 {
      BlankInField(s, fuel, t, at, p);
    } else {
      BlankInField(s, fuel - 1, t, FieldOf(at), p.(last := at, filled := false));
      BlankStarts(s, fuel, t, at, p);
    }
  }

  lemma BlankInField(s: Scope, fuel: nat, t: string, at: Where, p: Parts)
    requires s.Valid() && (AtField(at) || fuel == 0)
    ensures ScanOn(s, fuel, " " + t, at, p) == ScanOn(s, fuel, t, at, p)
  {
    TokenSkips(" ", t);
    hide GetToken;
  }

  lemma {:induction false} BlankStarts(s: Scope, fuel: nat, t: string, at: Where, p: Parts)
    requires s.Valid() && AtOperand(at) && fuel > 0
    requires var q := p.(last := at, filled := false);
             ScanOn(s, fuel - 1, " " + t, FieldOf(at), q) == ScanOn(s, fuel - 1, t, FieldOf(at), q)
    ensures ScanOn(s, fuel, " " + t, at, p) == ScanOn(s, fuel, t, at, p)
  {
    TokenSkips(" ", t);
    hide GetToken, ScanSymbol, WithMode;
    var (tok, rest) := GetToken(t);
    if tok.kind.Char? {
      var q := p.(last := at, filled := false);
      WordScans(s, fuel, " " + t, tok.text, rest, at, p);
      WordScans(s, fuel, t, tok.text, rest, at, p);
      SymbolAlike(s, fuel - 1, " " + t, t, rest, tok.text, at, FieldOf(at), q);
    }
  }

  lemma {:induction false} SymbolAlike(s: Scope, fuel: nat, t: string, u: string, rest: string, tok: string, at: Where,
                                       next: Where, q: Parts)
    requires s.Valid() && ScanOn(s, fuel, t, next, q) == ScanOn(s, fuel, u, next, q)
    ensures ScanSymbol(s, fuel, t, rest, tok, at, next, q) == ScanSymbol(s, fuel, u, rest, tok, at, next, q)
  {
    hide ScanOn;
  }

  /** No symbol, or a label. */
  predicate IsWordFor(s: Scope, name: string) {
    var found := Lookup(s.refs, name);
    found.Some? ==> s.refs[found.value].kind.Label?
  }

  /** A word collected: a label's number, or a letter. */
  function WordTaken(s: Scope, name: string, at: Where, p: Parts): (c: Option<Parts>)
    requires IsWordFor(s, name)
    ensures c.Some? ==> c.value.opcode == p.opcode
  {
    var found := Lookup(s.refs, name);
    if found.Some? then Gathered(p, at, Number(s.refs[found.value].kind.at, s.line, p.opcode >= OPNUM))
    else if |name| == 1 then Collect(p.(last := FieldOf(at)), FieldOf(at), name)
    else None
  }

  function WordSteps(s: Scope, name: string, at: Where): nat {
    if Lookup(s.refs, name).None? && AtOperand(at) then 2 else 1
  }

  lemma WordInText(s: Scope, fuel: nat, t: string, name: string, u: string, at: Where, p: Parts)
    requires s.Valid() && GetToken(t) == (Token(Char, name), u) && Knows(s, s, p.opcode >= OPNUM, name) && fuel > 5
    requires (AtField(at) || AtOperand(at)) && PseudoFits(p, at)
    ensures ScanOn(s, fuel, t, at, p)
            == var c := WordTaken(s, name, at, p);
               if c.None? then None else ScanOn(s, fuel - WordSteps(s, name, at), u, FieldOf(at), c.value)
  {
    hide ScanOn, GetToken, Gathered;
    var found := Lookup(s.refs, name);
    if found.Some? {
      NameScans(s, fuel, t, name, u, s.refs[found.value].kind.at, at, p);
    } else {
      WordScans(s, fuel, t, name, u, at, p);
      if AtOperand(at) {
        WordScans(s, fuel - 1, t, name, u, FieldOf(at), p.(last := at, filled := false));
      }
    }
  }

  /** The word as pass 1 leaves it. */
  lemma WordAsLeft(early: Scope, late: Scope, fuel: nat, name: string, rest: string, u: string, at: Where, p: Parts)
    requires early.Valid() && late.Valid() && early.line == late.line && fuel > 5 && !IsWord(Head(u))
    requires Name(name) && !Appends(rest) && Knows(early, late, p.opcode >= OPNUM, name)
    requires name != "" && AllWord(name) && (IsAlpha(name[0]) || name[0] == '_')
    requires (AtField(at) || AtOperand(at)) && PseudoFits(p, at)
    ensures Standing(early, p.opcode >= OPNUM, name).Some?
    ensures ScanOn(late, fuel, Standing(early, p.opcode >= OPNUM, name).value + u, at, p)
            == var c := WordTaken(late, name, at, p);
               if c.None? then None
               else ScanOn(late, fuel - EarlySteps(early, late, name, at, p), u, FieldOf(at), c.value)
  {
    hide ScanOn, GetToken, Gathered, Standing, Name;
    KnownStands(early, late, p.opcode >= OPNUM, name, rest);
    if Lookup(early.refs, name).None? {
      WordToken(name, u);
      WordInText(late, fuel, name + u, name, u, at, p);
    } else {
      NumberScans(late, fuel, Number(late.refs[Lookup(late.refs, name).value].kind.at, late.line, p.opcode >= OPNUM),
          u, at, p);
    }
  }

  function EarlySteps(early: Scope, late: Scope, name: string, at: Where, p: Parts): (n: nat)
    ensures n <= 3
  {
    var found := Lookup(late.refs, name);
    if Lookup(early.refs, name).None? || found.None? || !late.refs[found.value].kind.Label? then
      WordSteps(late, name, at)
    else Steps(at, Number(late.refs[found.value].kind.at, late.line, p.opcode >= OPNUM))
  }

  /** The same operands, as pass 1 leaves them and as they stand. */
  predicate Same(early: Scope, late: Scope, pseudo: bool, t: string, at: Where, p: Parts, f: nat, g: nat)
    requires late.Valid()
  {
    var z := Rewritten(early, pseudo, t);
    z.Some? && ScanOn(late, f, z.value, at, p) == ScanOn(late, g, t, at, p)
  }

  /** Whichever pass resolves them: from what pass 1 leaves of operands the
      automaton collects what it collects from the operands themselves, knowing
      all labels; or it reports an error on both. */
  lemma {:induction false} EitherPass(early: Scope, late: Scope, t: string, at: Where, p: Parts, f: nat, g: nat)
    requires early.Valid() && late.Valid() && early.line == late.line && Resolves(early, late, p.opcode >= OPNUM, t)
    requires (AtField(at) || AtOperand(at)) && PseudoFits(p, at)
    requires var more := if AtOperand(at) then 7 else 6; f > 3 * |t| + more && g > 2 * |t| + more
    ensures Same(early, late, p.opcode >= OPNUM, t, at, p, f, g)
    decreases |t|, AtOperand(at)
  {
    hide ScanOn, Rewritten, GetToken, Name, Knows, Moves, WordTaken, EarlySteps;
    var (tok, rest) := GetToken(t);
    TokenReads(t);
    if tok.kind.End? {
      NothingEither(early, late, t, at, p, f, g);
    } else if tok.kind.Char? {
      WordEither(early, late, t, at, p, f, g);
      var c := WordTaken(late, tok.text, at, p);
      if c.Some? {
        EitherPass(early, late, rest, FieldOf(at), c.value, f - EarlySteps(early, late, tok.text, at, p),
            g - WordSteps(late, tok.text, at));
      }
    } else if AtOperand(at) && (tok.kind.Numb? || tok.kind.Expr?) {
      FieldStarts(early, late, t, at, p, f, g);
      EitherPass(early, late, t, FieldOf(at), p.(last := at, filled := false), f - 1, g - 1);
    } else {
      MoveEither(early, late, t, at, p, f, g);
      var m := Moves(tok, at, p);
      if m.Some? {
        EitherPass(early, late, rest, m.value.0, m.value.1, f - 1, g - 1);
      }
    }
  }

  lemma NothingEither(early: Scope, late: Scope, t: string, at: Where, p: Parts, f: nat, g: nat)
    requires late.Valid() && GetToken(t).0.kind.End? && (AtField(at) || AtOperand(at)) && f > 0 && g > 0
    ensures Same(early, late, p.opcode >= OPNUM, t, at, p, f, g)
  {
    hide GetToken, ScanOn;
    NothingThere();
    EndScans(late, f, "", at, p);
    EndScans(late, g, t, at, p);
  }

  lemma NothingThere()
    ensures GetToken("") == (Token(End, ""), "")
  {
  }

  lemma EndScans(s: Scope, fuel: nat, t: string, at: Where, p: Parts)
    requires s.Valid() && (AtField(at) || AtOperand(at)) && fuel > 0 && GetToken(t).0.kind.End?
    ensures ScanOn(s, fuel, t, at, p) == Some(p.(last := at, filled := AtField(at) && p.filled))
  {
    hide GetToken;
  }

  /** A word, and the rest alike. */
  lemma WordEither(early: Scope, late: Scope, t: string, at: Where, p: Parts, f: nat, g: nat)
    requires early.Valid() && late.Valid() && early.line == late.line && Resolves(early, late, p.opcode >= OPNUM, t)
    requires (AtField(at) || AtOperand(at)) && PseudoFits(p, at) && f > 8 && g > 8 && GetToken(t).0.kind.Char?
    ensures var (tok, rest) := GetToken(t);
            && IsWordFor(late, tok.text)
            && (WordTaken(late, tok.text, at, p).None? ==> Same(early, late, p.opcode >= OPNUM, t, at, p, f, g))
            && (WordTaken(late, tok.text, at, p).Some? ==>
                  var c := WordTaken(late, tok.text, at, p).value;
                  Same(early, late, p.opcode >= OPNUM, rest, FieldOf(at), c,
                       f - EarlySteps(early, late, tok.text, at, p), g - WordSteps(late, tok.text, at)) ==>
                    Same(early, late, p.opcode >= OPNUM, t, at, p, f, g))
  {
    hide ScanOn, GetToken, Name, WordTaken, EarlySteps, WordSteps, Gathered, Rewritten, Resolves, Knows, Standing;
    var pseudo := p.opcode >= OPNUM;
    var (tok, rest) := GetToken(t);
    WordText(early, late, pseudo, t);
    var z := Rewritten(early, pseudo, rest).value;
    var u := Spaced("", rest) + z;
    WordAsLeft(early, late, f, tok.text, rest, u, at, p);
    KnownIsWord(early, late, pseudo, tok.text);
    WordInText(late, g, t, tok.text, rest, at, p);
    var c := WordTaken(late, tok.text, at, p);
    if c.Some? {
      SpacedScans(late, f - EarlySteps(early, late, tok.text, at, p), rest, z, FieldOf(at), c.value);
    }
  }

  lemma KnownIsWord(early: Scope, late: Scope, pseudo: bool, name: string)
    requires Knows(early, late, pseudo, name)
    ensures IsWordFor(late, name) && Knows(late, late, pseudo, name)
  {
  }

  lemma SpacedScans(s: Scope, fuel: nat, rest: string, z: string, at: Where, p: Parts)
    requires s.Valid() && AtField(at)
    ensures ScanOn(s, fuel, Spaced("", rest) + z, at, p) == ScanOn(s, fuel, z, at, p)
  {
    hide ScanOn;
    if IsSpace(Head(rest)) {
      BlankScans(s, fuel, z, at, p);
      assert "" + " " == " ";
    } else {
      assert "" + "" + z == z;
    }
  }

  /** Operands that begin with a word. */
  lemma WordText(early: Scope, late: Scope, pseudo: bool, t: string)
    requires Resolves(early, late, pseudo, t) && GetToken(t).0.kind.Char?
    ensures var (word, rest) := (GetToken(t).0.text, GetToken(t).1);
            && word != "" && AllWord(word) && (IsAlpha(word[0]) || word[0] == '_')
            && Name(word) && !Appends(rest) && Knows(early, late, pseudo, word) && Resolves(early, late, pseudo, rest)
            && Standing(early, pseudo, word).Some? && Rewritten(early, pseudo, rest).Some?
            && var u := Spaced("", rest) + Rewritten(early, pseudo, rest).value;
               !IsWord(Head(u)) && Rewritten(early, pseudo, t) == Some(Standing(early, pseudo, word).value + u)
  {
    hide GetToken, Name, Knows, Standing, ShowNat;
    var (tok, rest) := GetToken(t);
    TokenReads(t);
    ResolvesRewrites(early, late, pseudo, rest);
    KnownStands(early, late, pseudo, tok.text, rest);
    StandsApart(early, late, pseudo, rest);
    var z := Rewritten(early, pseudo, rest).value;
    var x := Standing(early, pseudo, tok.text).value;
    assert Spaced(x, rest) + z == x + (Spaced("", rest) + z);
  }

  lemma {:induction false} FieldStarts(early: Scope, late: Scope, t: string, at: Where, p: Parts, f: nat, g: nat)
    requires late.Valid() && AtOperand(at) && f > 0 && g > 0 && Resolves(early, late, p.opcode >= OPNUM, t)
    requires GetToken(t).0.kind.Numb? || GetToken(t).0.kind.Expr?
    ensures Same(early, late, p.opcode >= OPNUM, t, FieldOf(at), p.(last := at, filled := false), f - 1, g - 1) ==>
              Same(early, late, p.opcode >= OPNUM, t, at, p, f, g)
  {
    hide ScanOn, GetToken, Rewritten, Resolves, FieldOf;
    MoveText(early, late, p.opcode >= OPNUM, t);
    StartsField(late, f, Rewritten(early, p.opcode >= OPNUM, t).value, at, p);
    StartsField(late, g, t, at, p);
  }

  lemma MoveEither(early: Scope, late: Scope, t: string, at: Where, p: Parts, f: nat, g: nat)
    requires late.Valid() && Resolves(early, late, p.opcode >= OPNUM, t) && f > 0 && g > 0
    requires AtField(at) || AtOperand(at)
    requires var k := GetToken(t).0.kind;
             && (k.Expr? || k.Numb? || k.Addr? || k.Fsep?) && (AtOperand(at) ==> k.Addr? || k.Fsep?)
    ensures var (tok, rest) := GetToken(t);
            var m := Moves(tok, at, p);
            && (m.None? ==> Same(early, late, p.opcode >= OPNUM, t, at, p, f, g))
            && (m.Some? && Same(early, late, p.opcode >= OPNUM, rest, m.value.0, m.value.1, f - 1, g - 1) ==>
                  Same(early, late, p.opcode >= OPNUM, t, at, p, f, g))
  {
    hide ScanOn, GetToken, Moves, Rewritten, Resolves;
    var (tok, rest) := GetToken(t);
    MoveText(early, late, p.opcode >= OPNUM, t);
    MoveScans(late, f, Rewritten(early, p.opcode >= OPNUM, t).value, tok,
        Rewritten(early, p.opcode >= OPNUM, rest).value, at, p);
    MoveScans(late, g, t, tok, rest, at, p);
  }

  /** Operands that begin with a number or a symbol. */
  lemma MoveText(early: Scope, late: Scope, pseudo: bool, t: string)
    requires Resolves(early, late, pseudo, t)
    requires var k := GetToken(t).0.kind; k.Expr? || k.Numb? || k.Addr? || k.Fsep?
    ensures var (tok, rest) := GetToken(t);
            && Resolves(early, late, pseudo, rest) && Rewritten(early, pseudo, rest).Some?
            && Rewritten(early, pseudo, t) == Some(tok.text + Rewritten(early, pseudo, rest).value)
            && GetToken(Rewritten(early, pseudo, t).value) == (tok, Rewritten(early, pseudo, rest).value)
  {
    hide GetToken, Name, Knows, Standing, ShowNat;
    var (tok, rest) := GetToken(t);
    ResolvesRewrites(early, late, pseudo, rest);
    var z := Rewritten(early, pseudo, rest).value;
    if tok.kind.Numb? {
      TokenReads(t);
      SymbolFirst(early, late, pseudo, rest);
      NumberToken(tok.text, z);
    } else {
      SymbolReads(t, z);
    }
  }

  /** Operands that begin with neither a number nor a word. */
  lemma SymbolFirst(early: Scope, late: Scope, pseudo: bool, t: string)
    requires Resolves(early, late, pseudo, t) && Rewritten(early, pseudo, t).Some?
    requires var k := GetToken(t).0.kind; !k.Numb? && !k.Char?
    ensures !IsDigit(Head(Rewritten(early, pseudo, t).value))
  {
    hide GetToken, Name, Knows, Standing, ShowNat;
    TokenReads(t);
  }

  /** The opcode stays what it is. */
  lemma {:induction false} OpcodeStays(s: Scope, t: string, at: Where, p: Parts, fuel: nat)
    requires s.Valid() && Resolves(s, s, p.opcode >= OPNUM, t) && (AtField(at) || AtOperand(at)) && PseudoFits(p, at)
    requires fuel > 2 * |t| + if AtOperand(at) then 7 else 6
    ensures var z := ScanOn(s, fuel, t, at, p); z.Some? ==> z.value.opcode == p.opcode
    decreases |t|, AtOperand(at)
  {
    hide ScanOn, GetToken, Name, Knows, Moves, WordTaken, Resolves;
    var pseudo := p.opcode >= OPNUM;
    var (tok, rest) := GetToken(t);
    if tok.kind.End? {
      EndScans(s, fuel, t, at, p);
    } else if tok.kind.Char? {
      WordText(s, s, pseudo, t);
      KnownIsWord(s, s, pseudo, tok.text);
      WordInText(s, fuel, t, tok.text, rest, at, p);
      var c := WordTaken(s, tok.text, at, p);
      if c.Some? {
        OpcodeStays(s, rest, FieldOf(at), c.value, fuel - WordSteps(s, tok.text, at));
      }
    } else if AtOperand(at) && (tok.kind.Numb? || tok.kind.Expr?) {
      StartsField(s, fuel, t, at, p);
      OpcodeStays(s, t, FieldOf(at), p.(last := at, filled := false), fuel - 1);
    } else {
      ResolvesOn(s, pseudo, t);
      MoveScans(s, fuel, t, tok, rest, at, p);
      var m := Moves(tok, at, p);
      if m.Some? {
        OpcodeStays(s, rest, m.value.0, m.value.1, fuel - 1);
      }
    }
  }

  lemma {:induction false} ResolvesOn(s: Scope, pseudo: bool, t: string)
    requires Resolves(s, s, pseudo, t) && !GetToken(t).0.kind.End?
    ensures Resolves(s, s, pseudo, GetToken(t).1)
    ensures var k := GetToken(t).0.kind; k.Char? || k.Expr? || k.Numb? || k.Addr? || k.Fsep?
  {
    hide GetToken, Name, Knows;
  }

  // ---- one name ----

  /** Nothing of the field collected yet. */
  predicate Fresh(p: Parts, at: Where) {
    (AtField(at) || AtOperand(at)) && (if FieldOf(at).AtExpr? then p.bExpr else p.aExpr) == ""
  }

  /** The parts with the number `d` collected. */
  function Holding(p: Parts, at: Where, d: int): Parts {
    if FieldOf(at).AtExpr? then p.(last := AtExpr, filled := true, bExpr := NumText(d))
    else p.(last := AtExpFs, filled := true, aExpr := NumText(d))
  }

  /** A label is the same whichever pass resolves it: for an operand that is its
      name, wherever the operand is and with or without a mode before it, pass 2
      collects from what pass 1 leaves the label's distance from the instruction,
      and behind ORG, END or PIN its number, defined before it or after it. */
  lemma LabelEitherPass(early: Scope, late: Scope, fuel: nat, name: string, v: nat, at: Where, p: Parts)
    requires early.Valid() && late.Valid() && early.line == late.line && Plainly(name) && fuel > 6
    requires Lookup(early.refs, name).None? || IsLabel(early.refs, name, v)
    requires IsLabel(late.refs, name, v) && Near(Number(v, late.line, p.opcode >= OPNUM))
    requires Fresh(p, at) && PseudoFits(p, at)
    ensures var t := Operands(early, p.opcode >= OPNUM, fuel, name, "");
            t.Some? && ScanOn(late, fuel, t.value, at, p)
                       == Some(Holding(p, at, Number(v, late.line, p.opcode >= OPNUM)))
  {
    hide Operands, ScanOn, Lookup, GetToken, Name;
    var pseudo := p.opcode >= OPNUM;
    var d := Number(v, late.line, pseudo);
    NearIsShort(d);
    NameRewrites(early, pseudo, fuel, name);
    NothingThere();
    assert ShowInt(d) + "" == ShowInt(d) && name + "" == name;
    if Lookup(early.refs, name).None? {
      WordToken(name, "");
      NameScans(late, fuel, name, name, "", v, at, p);
    } else {
      NumberScans(late, fuel, d, "", at, p);
    }
    HoldingIs(p, at, d);
    EndScans(late, fuel - (if Lookup(early.refs, name).None? then 1 else Steps(at, d)), "", FieldOf(at),
        Gathered(p, at, d).value);
  }

  lemma HoldingIs(p: Parts, at: Where, d: int)
    requires Fresh(p, at) && |ShowInt(d)| <= 11
    ensures Gathered(p, at, d) == Some(Holding(p, at, d))
  {
    assert "" + NumText(d) == NumText(d);
  }

  /** A name alone in pass 1. */
  lemma NameRewrites(s: Scope, pseudo: bool, fuel: nat, name: string)
    requires s.Valid() && Plainly(name) && fuel > 1
    requires Standing(s, pseudo, name).Some? && |Standing(s, pseudo, name).value| < MAXALLCHAR
    ensures Operands(s, pseudo, fuel, name, "") == Standing(s, pseudo, name)
  {
    hide Operands, GetToken, ShowNat, Lookup, Name, Standing;
    assert name + "" == name;
    WordToken(name, "");
    NothingThere();
    NameIsWord(s, pseudo, fuel, name);
    WordRewritten(s, pseudo, fuel - 1, name, "", "");
    var x := Standing(s, pseudo, name).value;
    assert Spaced(x, "") == x && "" + x == x && Concat("", x) == Some(x);
    NothingRewrites(s, pseudo, fuel - 1, x);
  }

  lemma NothingRewrites(s: Scope, pseudo: bool, fuel: nat, dest: string)
    requires s.Valid() && fuel > 0
    ensures Operands(s, pseudo, fuel, "", dest) == Some(dest)
  {
  }

  lemma NameIsWord(s: Scope, pseudo: bool, fuel: nat, name: string)
    requires s.Valid() && fuel > 0 && GetToken(name) == (Token(Char, name), "") && Name(name)
    ensures Operands(s, pseudo, fuel, name, "") == OperandWord(s, pseudo, fuel - 1, name, "", "")
    ensures !PseudoOf(name).Curline? && Named(s.refs, name, "") == Some((name, ""))
  {
    hide OperandWord, GetToken;
  }

  // ---- where it leads ----

  /** And it leads to the label: the field the collected number evaluates to,
      added to the instruction's own address, is the label's, around the core and
      wherever the warrior is loaded. */
  lemma LabelLeadsThere(cs: nat, load: nat, line: nat, v: nat, regs: seq<int>, save: nat)
    requires cs >= 1 && Near(v - line) && St(regs, save, Fine).Valid()
    ensures var (status, n, st) := EvalExpr(NumText(v - line), regs, save);
            status.Fine? && st == St(regs, save, Fine) && (load + line + n % cs) % cs == (load + v) % cs
  {
    hide EvalExpr, NumText;
    NumberEvaluates(v - line, regs, save);
    AroundTheCore(load + line, v - line, cs);
  }

  lemma AroundTheCore(x: int, d: int, cs: nat)
    requires cs >= 1
    ensures (x + d % cs) % cs == (x + d) % cs
  {
    var q := d / cs;
    assert d == q * cs + d % cs;
    var r := (x + d % cs) % cs;
    var k := (x + d % cs) / cs;
    assert x + d % cs == k * cs + r;
    assert x + d == (k + q) * cs + r;
    Bits.ModUnique(x + d, cs, k + q, r);
  }
}
