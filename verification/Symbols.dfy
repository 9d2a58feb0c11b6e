/** What symbols do to a line, as functions of the symbols alone (src/asm.rs:
    1241-1268, 1284-1497, 1509-1697): pass 1 on a line that is an instruction or
    an EQU behind labels, and the automaton of pass 2. Nothing where the source
    reports an error, or writes more than the one line. */
module Symbols {
  import opened Redcode
  import opened Text
  import opened AsmText
  import opened Evaluator

  const GRPMAX: nat := 7
  const MAX_EXPANSION: nat := 100_000
  const MAX_LINES: nat := 100_000

  datatype Line = Line(text: string, loc: nat)

  /** EQU text by its list of lines, a FOR counter, or a label. */
  datatype RefKind = EquText(list: nat) | Counter(v: nat) | Label(at: nat)

  datatype Ref = Ref(names: seq<string>, kind: RefKind, visit: bool)

  /** The newest live symbol of a name. */
  function Lookup(refs: seq<Ref>, name: string): (r: Option<nat>)
    ensures r.Some? ==> r.value < |refs| && name in refs[r.value].names
  {
    if refs == [] then None
    else if name in refs[|refs| - 1].names then Some(|refs| - 1)
    else Lookup(refs[..|refs| - 1], name)
  }

  /** The newest, and nothing else: a symbol behind it does not have the name. */
  lemma {:induction false} LookupIsNewest(refs: seq<Ref>, name: string)
    ensures match Lookup(refs, name)
            case Some(k) => forall j :: k < j < |refs| ==> name !in refs[j].names
            case None => forall j :: 0 <= j < |refs| ==> name !in refs[j].names
  {
    if refs != [] && name !in refs[|refs| - 1].names {
      var before := refs[..|refs| - 1];
      LookupIsNewest(before, name);
      forall j | 0 <= j < |refs| - 1
        ensures refs[j] == before[j]
      {
      }
    }
  }

  datatype Pseudo = Rof | For | Curline | Equ | Other

  /** The words pass 1 acts on itself. */
  function PseudoOf(token: string): Pseudo {
    if Upper(token) == "ROF" then Rof
    else if Upper(token) == "FOR" then For
    else if token == "CURLINE" then Curline
    else if Upper(token) == "EQU" then Equ
    else Other
  }

  /** FOR, ROF and EQU in any case, CURLINE in capitals only. */
  lemma PseudoWordsRead(token: string)
    ensures PseudoOf(token).Rof? <==> Upper(token) == "ROF"
    ensures PseudoOf(token).For? <==> Upper(token) == "FOR"
    ensures PseudoOf(token).Equ? <==> Upper(token) == "EQU" && token != "CURLINE"
    ensures PseudoOf(token).Curline? <==> token == "CURLINE"
  {
    hide Upper;
    assert |Upper(token)| == |token|;
    assert "ROF"[0] == 'R' && "FOR"[0] == 'F' && "EQU"[0] == 'E';
  }

  /** A word that is neither, nor an opcode. */
  predicate Name(token: string) {
    PseudoOf(token).Other? && OpIndex(Upper(token)) == EQUOP
  }

  /** The lists and symbols there are, and the number of the instruction. */
  datatype Scope = Scope(lists: seq<seq<Line>>, refs: seq<Ref>, line: nat)
  {
    /** With symbol `k` in use. */
    function Marked(k: nat): Scope
      requires k < |refs|
    {
      this.(refs := refs[k := refs[k].(visit := true)])
    }

    predicate Valid() {
      forall k :: 0 <= k < |refs| && refs[k].kind.EquText? ==>
          refs[k].kind.list < |lists| && lists[refs[k].kind.list] != []
    }
  }

  // ---- pass 1 ----

  /** `s`, and a blank where white space follows. */
  function Spaced(s: string, rest: string): string {
    s + if IsSpace(Head(rest)) then " " else ""
  }

  /** `name&counter`: counters as two digits each. */
  function Named(refs: seq<Ref>, word: string, after: string): (r: Option<(string, string)>)
    ensures r.Some? ==> |r.value.1| <= |after|
    decreases |after|
  {
    if Head(after) != '&' || !IsAlpha(Head(Tail(after))) then Some((word, after))
    else
      var (t, next) := GetToken(Tail(after));
      var found := Lookup(refs, t.text);
      if !t.kind.Char? || found.None? || !refs[found.value].kind.Counter? then None
      else
        var e := Concat(word, ShowTwo(refs[found.value].kind.v));
        if e.None? then None else Named(refs, e.value, next)
  }

  /** A number in place of a symbol's name: a label's distance, or its number
      behind a pseudo-opcode; a FOR counter as two digits. */
  function Shown(kind: RefKind, line: nat, pseudo: bool): string
    requires !kind.EquText?
  {
    match kind
    case Label(at) => if pseudo then ShowNat(at) else ShowInt(at - line)
    case Counter(v) => ShowTwo(v)
  }

  /** The operands `t` behind `dest`: the tokens one after another, names
      replaced by what they stand for now; names not known yet stay. `fuel` is
      the recursion depth left. */
  function Operands(s: Scope, pseudo: bool, fuel: nat, t: string, dest: string): Option<string>
    requires s.Valid()
    decreases fuel, 0
  {
    var (tok, rest) := GetToken(t);
    if fuel == 0 then None
    else if tok.kind.End? || tok.kind.Comm? then Some(dest)
    else if !tok.kind.Char? then OperandsOn(s, pseudo, fuel - 1, rest, Concat(dest, tok.text))
    else OperandWord(s, pseudo, fuel - 1, tok.text, rest, dest)
  }

  function OperandWord(s: Scope, pseudo: bool, fuel: nat, word: string, rest: string, dest: string): Option<string>
    requires s.Valid()
    decreases fuel, 4
  {
    if PseudoOf(word).Curline? then OperandsOn(s, pseudo, fuel, rest, Concat(dest, Spaced(ShowNat(s.line), rest)))
    else if !Name(word) then None
    else
      var n := Named(s.refs, word, rest);
      if n.None? then None else OperandName(s, pseudo, fuel, n.value.0, n.value.1, dest)
  }

  function OperandsOn(s: Scope, pseudo: bool, fuel: nat, t: string, dest: Option<string>): Option<string>
    requires s.Valid()
    decreases fuel, 1
  {
    if dest.None? then None else Operands(s, pseudo, fuel, t, dest.value)
  }

  /** An operand's name, the counters already appended. */
  function OperandName(s: Scope, pseudo: bool, fuel: nat, name: string, rest: string, dest: string): Option<string>
    requires s.Valid()
    decreases fuel, 3
  {
    var found := Lookup(s.refs, name);
    if found.None? then OperandsOn(s, pseudo, fuel, rest, Concat(dest, Spaced(name, rest)))
    else if s.refs[found.value].kind.EquText? then OperandEqu(s, pseudo, fuel, found.value, rest, dest)
    else OperandsOn(s, pseudo, fuel, rest, Concat(dest, Spaced(Shown(s.refs[found.value].kind, s.line, pseudo), rest)))
  }

  /** An EQU of one line, not in use: its text in place of its name. */
  function OperandEqu(s: Scope, pseudo: bool, fuel: nat, k: nat, rest: string, dest: string): Option<string>
    requires s.Valid() && k < |s.refs| && s.refs[k].kind.EquText?
    decreases fuel, 2
  {
    var body := s.lists[s.refs[k].kind.list];
    if s.refs[k].visit || |body| > 1 then None
    else
      var d := Operands(s.Marked(k), pseudo, fuel, body[0].text, dest);
      if d.None? then None else Operands(s, pseudo, fuel, rest, WithBlank(d.value, rest))
  }

  /** A blank where white space follows, if there is room. */
  function WithBlank(d: string, rest: string): string {
    if IsSpace(Head(rest)) && Concat(d, " ").Some? then d + " " else d
  }

  /** What a line is, behind the labels it defines: an instruction, as pass 1
      writes it, an EQU, or a FOR, with the recursion depth left; or a ROF. */
  datatype Opening =
    | Opens(labels: seq<string>, op: nat, text: string)
    | Defines(labels: seq<string>, expr: string)
    | Repeats(labels: seq<string>, expr: string, fuel: nat)
    | Asserts(expr: string)
    | Closes

  function LineStart(s: Scope, labels: seq<string>, fuel: nat, t: string, dest: string): (o: Option<Opening>)
    requires s.Valid()
    ensures o.Some? && o.value.Repeats? ==> o.value.fuel < fuel
    ensures o.Some? && labels != [] ==> !o.value.Closes? && !o.value.Asserts?
    decreases fuel, 0
  {
    var (tok, rest) := GetToken(t);
    if fuel == 0 then None
    else if tok.kind.Comm? then LineAsserts(s, labels, fuel - 1, rest, dest)
    else if !tok.kind.Char? then None
    else LineWord(s, labels, fuel - 1, tok.text, rest, dest)
  }

  /** `;assert`, the semicolon taken off, and its expression rewritten. */
  function LineAsserts(s: Scope, labels: seq<string>, fuel: nat, t: string, dest: string): (o: Option<Opening>)
    requires s.Valid()
    ensures o.Some? ==> o.value.Asserts? && labels == []
  {
    var (tok, rest) := GetToken(t);
    if labels != [] || Upper(tok.text) != "ASSERT" then None
    else
      var z := Operands(s, false, fuel, rest, dest);
      if z.None? then None else Some(Asserts(z.value))
  }

  function LineWord(s: Scope, labels: seq<string>, fuel: nat, word: string, rest: string,
                    dest: string): (o: Option<Opening>)
    requires s.Valid()
    ensures o.Some? && o.value.Repeats? ==> o.value.fuel <= fuel
    ensures o.Some? ==> !o.value.Asserts? && (labels != [] ==> !o.value.Closes?)
    decreases fuel, 2
  {
    if !Name(word) then WordStart(s, labels, fuel, word, rest, dest)
    else
      var n := Named(s.refs, word, rest);
      if n.None? then None else LineLabel(s, labels, fuel, n.value.0, n.value.1, dest)
  }

  /** A name not known yet: a label. */
  function LineLabel(s: Scope, labels: seq<string>, fuel: nat, name: string, rest: string,
                     dest: string): (o: Option<Opening>)
    requires s.Valid()
    ensures o.Some? && o.value.Repeats? ==> o.value.fuel <= fuel
    ensures o.Some? ==> !o.value.Asserts? && (labels != [] ==> !o.value.Closes?)
    decreases fuel, 1
  {
    if |labels| >= GRPMAX || Lookup(s.refs, name).Some? then None
    else LineStart(s, labels + [name], fuel, AfterColon(rest), dest)
  }

  /** A label may end with a colon. */
  function AfterColon(t: string): string {
    if Head(t) == ':' then Tail(t) else t
  }

  /** From an opcode or a pseudo-opcode on. */
  function WordStart(s: Scope, labels: seq<string>, fuel: nat, word: string, rest: string,
                     dest: string): (o: Option<Opening>)
    requires s.Valid()
    ensures o.Some? && o.value.Repeats? ==> o.value.fuel <= fuel
    ensures o.Some? ==> !o.value.Asserts? && (labels != [] ==> !o.value.Closes?)
  {
    match PseudoOf(word)
    case Equ => if labels == [] then None else Some(Defines(labels, rest))
    case For => Some(Repeats(labels, rest, fuel))
    case Rof => if labels == [] then Some(Closes) else None
    case Other =>
      var op := OpIndex(Upper(word));
      var (run, rest2) := Run(rest);
      var z := OperandsOn(s, op >= OPNUM, fuel, rest2, Concat(dest, Spaced(Upper(word) + run, rest2)));
      if op == EQUOP || z.None? then None else Some(Opens(labels, op, z.value))
    case _ => None
  }

  /** A line passed over behind a FOR that goes round no times: how many FORs are
      open after it. A word that is neither FOR nor ROF, nor an opcode, EQU or
      CURLINE, may be a label of the line. */
  function Passed(fuel: nat, t: string, open: nat): Option<nat>
    requires open > 0
    decreases fuel
  {
    var (tok, rest) := GetToken(t);
    if fuel == 0 then None
    else if !tok.kind.Char? then Some(open)
    else if Name(tok.text) then Passed(fuel - 1, rest, open)
    else if PseudoOf(tok.text).Rof? then Some(open - 1)
    else if PseudoOf(tok.text).For? then Some(open + 1)
    else Some(open)
  }

  lemma OutOfFuel(s: Scope, pseudo: bool, labels: seq<string>, t: string, dest: string)
    requires s.Valid()
    ensures Operands(s, pseudo, 0, t, dest).None? && LineStart(s, labels, 0, t, dest).None?
    ensures forall open :: open > 0 ==> Passed(0, t, open).None?
  {
  }

  // ---- pass 2 ----

  /** What a symbol stands for in pass 2: the first line of an EQU, or a number,
      relative to the current instruction or not. */
  function SymbolText(s: Scope, k: nat, relative: bool): string
    requires s.Valid() && k < |s.refs|
  {
    match s.refs[k].kind
    case EquText(list) => s.lists[list][0].text
    case Label(v) => if relative then ShowInt(v - s.line) else ShowNat(v)
    case Counter(v) => if relative then ShowInt(v - s.line) else ShowNat(v)
  }

  /** The parts after the automaton has run over `t` from state `at`, names
      replaced by what they stand for; none if it reports an error. */
  function ScanOn(s: Scope, fuel: nat, t: string, at: Where, parts: Parts): Option<Parts>
    requires s.Valid()
    decreases fuel, 0
  {
    if fuel == 0 then None
    else
      var p := parts.(last := at);
      if at.AtOp? then ScanOpcode(s, fuel - 1, t, p)
      else if at.AtModf? then ScanModifier(s, fuel - 1, t, p)
      else if at.AtExpFs? || at.AtExpr? then ScanField(s, fuel - 1, t, at, p)
      else ScanOperand(s, fuel - 1, t, at, p)
  }

  function ScanOpcode(s: Scope, fuel: nat, t: string, p: Parts): Option<Parts>
    requires s.Valid()
    decreases fuel, 3
  {
    var (tok, rest) := GetToken(t);
    var op := OpIndex(Upper(tok.text));
    if !tok.kind.Char? || op == EQUOP then None
    else ScanOn(s, fuel, rest, if op < OPNUM then AtModAddrExp else AtExpr, p.(filled := false, opcode := op))
  }

  function ScanModifier(s: Scope, fuel: nat, t: string, p: Parts): Option<Parts>
    requires s.Valid()
    decreases fuel, 3
  {
    var (tok, rest) := GetToken(t);
    if tok.kind.End? then Some(p.(filled := false))
    else if !tok.kind.Char? then None
    else
      var m := Position(MODNAME, Upper(tok.text));
      if m == 7 then None else ScanOn(s, fuel, rest, AtAddrExpA, p.(filled := false, modifier := Some(m)))
  }

  /** Inside a field expression. */
  function ScanField(s: Scope, fuel: nat, t: string, at: Where, p: Parts): Option<Parts>
    requires s.Valid() && (at.AtExpFs? || at.AtExpr?)
    decreases fuel, 3
  {
    var (tok, rest) := GetToken(t);
    if tok.kind.Fsep? && at.AtExpFs? then ScanOn(s, fuel, rest, AtAddrExpB, p)
    else if tok.kind.End? then Some(p)
    else if tok.kind.Expr? || tok.kind.Numb? || (tok.kind.Addr? && tok.text[0] in "><*") then
      var piece := if tok.kind.Numb? then Concat(tok.text, " ") else Some(tok.text);
      var c := if piece.Some? then Collect(p, at, piece.value) else None;
      if c.None? then None else ScanOn(s, fuel, rest, at, c.value)
    else if tok.kind.Char? then ScanWord(s, fuel, rest, tok.text, at, p)
    else None
  }

  /** A word inside an expression: a symbol, or a register. */
  function ScanWord(s: Scope, fuel: nat, rest: string, tok: string, at: Where, p: Parts): Option<Parts>
    requires s.Valid() && (at.AtExpFs? || at.AtExpr?)
    decreases fuel, 2
  {
    var found := Lookup(s.refs, tok);
    if found.Some? then
      var relative := at.AtExpFs? || p.opcode < OPNUM;
      var r := Substituted(s, fuel, found.value, SymbolText(s, found.value, relative), at, p);
      if r.None? then None else ScanOn(s, fuel, rest, if at.AtExpr? then AtExpr else r.value.last, r.value)
    else if |tok| == 1 then
      var c := Collect(p, at, tok);
      if c.None? then None else ScanOn(s, fuel, rest, at, c.value)
    else None
  }

  /** A symbol's text run over with the symbol marked, so that a symbol that
      calls on itself is an error. */
  function Substituted(s: Scope, fuel: nat, k: nat, text: string, at: Where, p: Parts): Option<Parts>
    requires s.Valid() && k < |s.refs|
    decreases fuel, 1
  {
    if s.refs[k].visit then None else ScanOn(s.Marked(k), fuel, text, at, p)
  }

  /** At the start of an operand. */
  function ScanOperand(s: Scope, fuel: nat, t: string, at: Where, p: Parts): Option<Parts>
    requires s.Valid()
    decreases fuel, 3
  {
    var (tok, rest) := GetToken(t);
    var q := p.(filled := false);
    var next := if at.AtAddrExpB? then AtExpr else AtExpFs;
    if tok.kind.Modf? && at.AtModAddrExp? then ScanOn(s, fuel, rest, AtModf, q)
    else if tok.kind.Addr? then ScanOn(s, fuel, rest, next, WithMode(q, at, tok.text[0]))
    else if tok.kind.Numb? || tok.kind.Expr? then ScanOn(s, fuel, t, next, q)
    else if tok.kind.Char? then ScanSymbol(s, fuel, t, rest, tok.text, at, next, q)
    else if tok.kind.End? then Some(q)
    else None
  }

  /** The addressing mode of the operand a state is at. */
  function WithMode(p: Parts, at: Where, c: char): Parts {
    if at.AtAddrExpB? then p.(bMode := ModeOf(c)) else p.(aMode := ModeOf(c))
  }

  /** A word where an operand starts: a symbol, or a register. */
  function ScanSymbol(s: Scope, fuel: nat, t: string, rest: string, tok: string, at: Where, next: Where,
                      q: Parts): Option<Parts>
    requires s.Valid()
    decreases fuel, 2
  {
    var found := Lookup(s.refs, tok);
    if found.Some? then
      var r := Substituted(s, fuel, found.value, SymbolText(s, found.value, true), at, q);
      if r.None? then None else ScanOn(s, fuel, rest, r.value.last, r.value)
    else if |tok| == 1 then ScanOn(s, fuel, t, next, q)
    else None
  }

  // ---- lines without symbols ----

  /** Operands without names are squeezed. */
  lemma {:induction false} PlainOperands(s: Scope, pseudo: bool, fuel: nat, t: string, dest: string)
    requires s.Valid() && Squeeze(t).Some? && |dest| + |Squeeze(t).value| < MAXALLCHAR && fuel > |t|
    ensures Operands(s, pseudo, fuel, t, dest) == Some(dest + Squeeze(t).value)
    decreases |t|
  {
    hide GetToken;
    var (tok, rest) := GetToken(t);
    if tok.kind.End? {
      assert dest + "" == dest;
    } else {
      PlainOperands(s, pseudo, fuel - 1, rest, dest + tok.text);
      assert dest + tok.text + Squeeze(rest).value == dest + (tok.text + Squeeze(rest).value);
    }
  }

  predicate AtOperand(at: Where) {
    at.AtModAddrExp? || at.AtAddrExpA? || at.AtAddrExpB?
  }

  /** Without names the automaton needs no symbols; at the start of an operand it
      may look at a token twice. */
  lemma {:induction false} PlainScan(s: Scope, fuel: nat, t: string, at: Where, parts: Parts)
    requires s.Valid() && Scan(t, at, parts).Some? && fuel > 2 * |t| + if AtOperand(at) then 1 else 0
    ensures ScanOn(s, fuel, t, at, parts) == Scan(t, at, parts)
    decreases fuel
  {
    hide GetToken, OpIndex, Upper, Position, Collect, Concat, ModeOf;
    var p := parts.(last := at);
    var (tok, rest) := GetToken(t);
    if at.AtOp? {
      var op := OpIndex(Upper(tok.text));
      PlainScan(s, fuel - 1, rest, if op < OPNUM then AtModAddrExp else AtExpr, p.(filled := false, opcode := op));
    } else if at.AtModf? {
      if !tok.kind.End? {
        PlainScan(s, fuel - 1, rest, AtAddrExpA,
            p.(filled := false, modifier := Some(Position(MODNAME, Upper(tok.text)))));
      }
    } else if at.AtExpFs? || at.AtExpr? {
      if tok.kind.Fsep? && at.AtExpFs? {
        PlainScan(s, fuel - 1, rest, AtAddrExpB, p);
      } else if !tok.kind.End? {
        var piece := if tok.kind.Numb? then Concat(tok.text, " ") else Some(tok.text);
        PlainScan(s, fuel - 1, rest, at, Collect(p, at, piece.value).value);
      }
    } else {
      var q := p.(filled := false);
      var next := if at.AtAddrExpB? then AtExpr else AtExpFs;
      if tok.kind.Modf? && at.AtModAddrExp? {
        PlainScan(s, fuel - 1, rest, AtModf, q);
      } else if tok.kind.Addr? {
        PlainScan(s, fuel - 1, rest, next, WithMode(q, at, tok.text[0]));
      } else if tok.kind.Numb? || tok.kind.Expr? {
        PlainScan(s, fuel - 1, t, next, q);
      }
    }
  }

  lemma PlainStarts(s: Scope, fuel: nat, t: string)
    requires s.Valid() && Statement(t).Some? && |Statement(t).value.1| < MAXALLCHAR && fuel > |t|
    ensures var (op, text) := Statement(t).value;
            LineStart(s, [], fuel, t, "") == Some(Opens([], op, text))
  {
    hide GetToken, OpIndex, Operands, PseudoOf;
    var (tok, rest) := GetToken(t);
    var (run, rest2) := Run(rest);
    var head := Spaced(Upper(tok.text) + run, rest2);
    assert Statement(t).value.1 == head + Squeeze(rest2).value;
    assert "" + head == head;
    OpcodeIsNoPseudo(tok.text);
    PlainOperands(s, Statement(t).value.0 >= OPNUM, fuel - 1, rest2, head);
  }

  lemma OpcodeIsNoPseudo(token: string)
    ensures OpIndex(Upper(token)) < EQUOP ==> PseudoOf(token).Other?
  {
    hide OpIndex;
    var i := OpIndex(Upper(token));
    if i < EQUOP {
      NoOpcode(i);
    }
  }

  lemma NoOpcode(i: nat)
    requires i < EQUOP
    ensures |OPNAME[i]| == 3 && OPNAME[i] != "ROF" && OPNAME[i] != "FOR" && OPNAME[i] != "EQU"
  {
    var s := OPNAME[i];
    assert s[1] != 'Q' && (s[0] == 'F' ==> false) && (s[0] == 'R' ==> false);
  }

  // ---- a text ----

  /** The EQU lines at the front, the word EQU taken off. */
  function EquLines(lines: seq<Line>): seq<Line> {
    if lines == [] then []
    else
      var (tok, rest) := GetToken(lines[0].text);
      if Upper(tok.text) == "EQU" then [Line(rest, lines[0].loc)] + EquLines(lines[1..]) else []
  }

  /** The symbol for the labels before an instruction. */
  function Labelled(labels: seq<string>, line: nat): seq<Ref> {
    if labels == [] then [] else [Ref(labels, Label(line), false)]
  }

  /** How far pass 1 is: the symbols, what is written, the next line, whether the
      text goes on, the FORs open whose lines are passed over, the lines expanded,
      the registers of expressions, and whether nothing has been asserted. */
  datatype Progress = Progress(s: Scope, out: seq<Line>, at: nat, open: bool, passing: nat, expanded: nat,
                               regs: seq<int>, save: nat, unchecked: bool)
  {
    predicate Valid() {
      s.Valid() && St(regs, save, Fine).Valid()
    }

    /** With FOR counter `me` at `n`. */
    function CountedTo(me: nat, n: nat): Progress
      requires me < |s.refs|
    {
      this.(s := s.(refs := s.refs[me := s.refs[me].(kind := Counter(n))]))
    }
  }

  /** `q` comes after `p`: symbols are only added. */
  predicate Onwards(p: Progress, q: Progress) {
    q.Valid() && p.s.lists <= q.s.lists && p.s.refs <= q.s.refs
  }

  function InstructionDone(p: Progress, labels: seq<string>, op: nat, l: Line): (r: Progress)
    requires p.Valid()
    ensures Onwards(p, r) && r.at > p.at && r.open == (p.open && op != ENDOP)
  {
    p.(s := p.s.(refs := p.s.refs + Labelled(labels, p.s.line), line := p.s.line + if op < OPNUM then 1 else 0),
       out := p.out + [l], at := p.at + 1, open := p.open && op != ENDOP)
  }

  function EquDone(p: Progress, labels: seq<string>, body: seq<Line>): (r: Progress)
    requires p.Valid() && body != []
    ensures Onwards(p, r) && r.at > p.at
  {
    p.(s := p.s.(lists := p.s.lists + [body], refs := p.s.refs + [Ref(labels, EquText(|p.s.lists|), false)]),
       at := p.at + |body|)
  }

  /** One line: an instruction is written and counted, its labels name its
      number; an EQU becomes a symbol for its lines; a FOR is gone round, or its
      lines are passed over up to its ROF; an assertion holds. */
  function LineDone(lines: seq<Line>, fuel: nat, p: Progress): (r: Option<Progress>)
    requires p.Valid() && p.at < |lines|
    ensures r.Some? ==> Onwards(p, r.value) && r.value.at > p.at
    decreases fuel, 1, 0
  {
    var l := lines[p.at];
    if p.passing > 0 then
      var n := Passed(fuel, l.text, p.passing);
      if n.None? then None else Some(p.(at := p.at + 1, passing := n.value))
    else match LineStart(p.s, [], fuel, l.text, "")
    case None => None
    case Some(Opens(labels, op, text)) => Some(InstructionDone(p, labels, op, Line(text, l.loc)))
    case Some(Defines(labels, expr)) => Some(EquDone(p, labels, [Line(expr, l.loc)] + EquLines(lines[p.at + 1..])))
    case Some(Repeats(labels, expr, left)) => ForDone(lines, left, p.(at := p.at + 1), labels, expr)
    case Some(Asserts(expr)) => AssertDone(p, expr)
    case Some(Closes) => None
  }

  /** An assertion holds if its expression has a value that is not zero. */
  function AssertDone(p: Progress, expr: string): (r: Option<Progress>)
    requires p.Valid()
    ensures r.Some? ==> Onwards(p, r.value) && r.value.at > p.at && r.value.open == p.open
  {
    var e := EvalExpr(expr, p.regs, p.save);
    if !e.0.Fine? || e.1 == 0 then None
    else Some(p.(at := p.at + 1, regs := e.2.regs, save := e.2.save, unchecked := false))
  }

  /** The last label before a FOR names its counter, the others its line; the
      lines up to ROF as often as the expression says, not at all if it is not
      positive. */
  function ForDone(lines: seq<Line>, fuel: nat, p: Progress, labels: seq<string>, expr: string): (r: Option<Progress>)
    requires p.Valid()
    ensures r.Some? ==> Onwards(p, r.value) && r.value.at >= p.at && (p.open ==> r.value.open)
    decreases fuel, 4, 0
  {
    var s := p.s.(refs := p.s.refs + Labelled(Others(labels), p.s.line));
    var z := Operands(s, false, fuel, expr, "");
    if z.None? then None
    else
      var e := EvalExpr(z.value, p.regs, p.save);
      if !e.0.Fine? then None
      else if e.1 <= 0 then Some(p.(s := s, regs := e.2.regs, save := e.2.save, passing := p.passing + 1))
      else Looped(lines, fuel, p.(s := s, regs := e.2.regs, save := e.2.save), Last(labels), e.1 % 0x1_0000)
  }

  /** All rounds, the counter live meanwhile. */
  function Looped(lines: seq<Line>, fuel: nat, p: Progress, name: seq<string>, limit: nat): (r: Option<Progress>)
    requires p.Valid()
    ensures r.Some? ==> Onwards(p, r.value) && r.value.at >= p.at && (p.open ==> r.value.open)
    decreases fuel, 3, limit + 2
  {
    var me := |p.s.refs|;
    var counted := p.s.(refs := p.s.refs + [Ref(name, Counter(1), true)]);
    var q := RoundsDone(lines, fuel, p.(s := counted), me, p.at, 1, limit);
    if q.None? then None
    else Some(q.value.(s := q.value.s.(refs := q.value.s.refs[me := q.value.s.refs[me].(names := [])])))
  }

  function Others(labels: seq<string>): seq<string> {
    if labels == [] then [] else labels[..|labels| - 1]
  }

  function Last(labels: seq<string>): seq<string> {
    if labels == [] then [] else [labels[|labels| - 1]]
  }

  /** Rounds `n` to `limit`, from line `start` each, the counter at the round. */
  function RoundsDone(lines: seq<Line>, fuel: nat, p: Progress, me: nat, start: nat, n: nat,
                      limit: nat): (r: Option<Progress>)
    requires p.Valid() && me < |p.s.refs| && p.s.refs[me].kind.Counter? && p.at >= start
    ensures r.Some? ==>
              r.value.Valid() && r.value.at >= start && p.s.lists <= r.value.s.lists && (p.open ==> r.value.open)
    ensures r.Some? ==>
              |p.s.refs| <= |r.value.s.refs| && r.value.s.refs[me].kind.Counter?
                  && p.s.refs[..me] == r.value.s.refs[..me]
    decreases fuel, 3, if n <= limit then limit + 1 - n else 0
  {
    if n > limit then Some(p)
    else
      var q := RoundDone(lines, fuel, p.CountedTo(me, n).(at := start));
      if q.None? || |q.value.out| > MAX_LINES then None
      else RoundsDone(lines, fuel, q.value, me, start, n + 1, limit)
  }

  /** One round: lines up to ROF, each of them counted as expanded. */
  function RoundDone(lines: seq<Line>, fuel: nat, p: Progress): (r: Option<Progress>)
    requires p.Valid()
    ensures r.Some? ==> Onwards(p, r.value) && r.value.at > p.at && (p.open ==> r.value.open) && r.value.passing == 0
    decreases fuel, 2, |lines| - p.at
  {
    if p.at >= |lines| || p.expanded >= MAX_EXPANSION then None
    else
      var now := p.(expanded := p.expanded + 1);
      if p.passing == 0 && LineStart(p.s, [], fuel, lines[p.at].text, "") == Some(Closes) then
        Some(now.(at := p.at + 1))
      else
        var q := LineDone(lines, fuel, now);
        if q.None? || !q.value.open then None else RoundDone(lines, fuel, q.value)
  }

  /** The text from there on; nothing where a line is none of these. */
  function TextDone(lines: seq<Line>, fuel: nat, p: Progress): (r: Option<Progress>)
    requires p.Valid()
    ensures r.Some? ==> Onwards(p, r.value)
    decreases |lines| - p.at
  {
    if p.at >= |lines| || !p.open then Some(p)
    else
      var q := LineDone(lines, fuel, p);
      if q.None? then None else TextDone(lines, fuel, q.value)
  }

  /** A line fine lines lead to is an assertion, and false. */
  predicate FalseHere(lines: seq<Line>, fuel: nat, p: Progress)
    requires p.Valid() && p.at < |lines|
  {
    p.passing == 0
    && match LineStart(p.s, [], fuel, lines[p.at].text, "")
       case Some(Asserts(expr)) =>
         var e := EvalExpr(expr, p.regs, p.save);
         !e.0.BadExpr? && !e.0.DivZero? && e.1 == 0
       case _ => false
  }

  /** Going through a text meets a false assertion. */
  predicate Denies(lines: seq<Line>, fuel: nat, p: Progress)
    requires p.Valid()
    decreases |lines| - p.at
  {
    && p.at < |lines| && p.open
    && var q := LineDone(lines, fuel, p);
       if q.Some? then Denies(lines, fuel, q.value) else FalseHere(lines, fuel, p)
  }
}
