/** Sources with labels: lines of a label, an instruction or ORG, END or PIN, and
    any expressions of labels, registers and numbers as operands. Assembling them
    in two passes is assembling every line as it stands with all labels known
    (src/asm.rs:1284-1823). */
module Sources {
  import opened Redcode
  import opened Configs
  import opened Text
  import opened Evaluator
  import opened AsmText
  import opened Symbols
  import opened Encodings
  import opened Listings
  import opened Labels
  import opened Assembler

  /** A line: its label, the number of its opcode or pseudo-opcode, its modifier
      and its operands. */
  datatype Row = Row(tag: Option<string>, op: nat, modifier: Option<Modifier>, operands: string)

  // ---- how it is written ----

  function OpText(op: nat): string {
    if op < EQUOP then OPNAME[op] else ""
  }

  function ModifierText(m: Option<Modifier>): string {
    if m.None? then "" else "." + ModName(m.value)
  }

  /** `JMP loop`, `MOV.AB #4, @ptr + 1`, `END start`. */
  function CodeText(r: Row): string {
    OpText(r.op) + (ModifierText(r.modifier) + (" " + r.operands))
  }

  function RowText(r: Row): string {
    if r.tag.None? then CodeText(r) else r.tag.value + (" " + CodeText(r))
  }

  function Texts(rows: seq<Row>): (r: seq<string>)
    ensures |r| == |rows|
  {
    seq(|rows|, k requires 0 <= k < |rows| => RowText(rows[k]))
  }

  // ---- which sources ----

  /** Labels, registers, numbers, operators, modes and commas; a number is not
      followed by another or by a name, nor a name by a counter. */
  predicate Writable(t: string)
    decreases |t|
  {
    var (tok, rest) := GetToken(t);
    match tok.kind
    case End => true
    case Char => Name(tok.text) && !Appends(rest) && !Predefined(tok.text) && Writable(rest)
    case Numb =>
      var next := GetToken(rest).0.kind;
      !next.Numb? && !next.Char? && Writable(rest)
    case Expr => Writable(rest)
    case Addr => Writable(rest)
    case Fsep => Writable(rest)
    case _ => false
  }

  /** The names in a text. */
  function Words(t: string): nat
    decreases |t|
  {
    var (tok, rest) := GetToken(t);
    if tok.kind.End? then 0 else (if tok.kind.Char? then 1 else 0) + Words(rest)
  }

  /** The names every source starts with. */
  predicate Predefined(name: string) {
    name in ["CORESIZE", "MAXPROCESSES", "MAXCYCLES", "MAXLENGTH", "MINDISTANCE", "VERSION", "WARRIORS", "ROUNDS",
             "PSPACESIZE"]
  }

  /** The line has room, also when every name becomes a number. */
  predicate RowFits(r: Row) {
    && r.op < EQUOP && (r.op >= OPNUM ==> r.modifier.None?)
    && Writable(r.operands) && Clean(r.operands)
    && (r.tag.Some? ==> Plainly(r.tag.value) && !Predefined(r.tag.value))
    && |RowText(r)| + 11 * Words(r.operands) < MAXALLCHAR - 1
  }

  /** Each label is defined once, and END is the last line if there is one. */
  predicate WellMade(rows: seq<Row>) {
    && (forall k :: 0 <= k < |rows| ==> RowFits(rows[k]))
    && (forall j, k :: 0 <= j < k < |rows| && rows[j].tag.Some? ==> rows[j].tag != rows[k].tag)
    && (forall k :: 0 <= k < |rows| - 1 ==> rows[k].op != ENDOP)
  }

  // ---- labels ----

  /** The first row of a label. */
  function Place(rows: seq<Row>, name: string): (k: nat)
    ensures k <= |rows| && (k < |rows| ==> rows[k].tag == Some(name))
    ensures forall j :: 0 <= j < k ==> rows[j].tag != Some(name)
  {
    if rows == [] then 0 else if rows[0].tag == Some(name) then 0 else 1 + Place(rows[1..], name)
  }

  /** The instructions before row `k`. */
  function Count(rows: seq<Row>, k: nat): (n: nat)
    requires k <= |rows|
    ensures n <= k
  {
    if k == 0 then 0 else Count(rows, k - 1) + if rows[k - 1].op < OPNUM then 1 else 0
  }

  /** The instruction a label names. */
  function Spot(rows: seq<Row>, name: string): (n: nat)
    ensures n <= |rows|
  {
    Count(rows, Place(rows, name))
  }

  /** Every name is a label of the rows to both passes, or no symbol to either. */
  ghost predicate Sees(early: Scope, late: Scope, rows: seq<Row>, pseudo: bool) {
    && early.line == late.line
    && forall name :: !Predefined(name) ==> SeesName(early, late, rows, pseudo, name)
  }

  predicate SeesName(early: Scope, late: Scope, rows: seq<Row>, pseudo: bool, name: string) {
    if Place(rows, name) < |rows| then
      && IsLabel(late.refs, name, Spot(rows, name)) && Near(Number(Spot(rows, name), late.line, pseudo))
      && (Lookup(early.refs, name).None? || IsLabel(early.refs, name, Spot(rows, name)))
    else Lookup(late.refs, name).None? && Lookup(early.refs, name).None?
  }

  lemma {:induction false} SeenIsKnown(early: Scope, late: Scope, rows: seq<Row>, pseudo: bool, name: string)
    requires Sees(early, late, rows, pseudo) && !Predefined(name)
    ensures Knows(early, late, pseudo, name)
  {
    hide Place, Lookup, Predefined, Count;
    assert SeesName(early, late, rows, pseudo, name);
  }

  /** Such operands can be rewritten, with 11 characters for a name at most. */
  lemma {:induction false} WritableResolves(early: Scope, late: Scope, rows: seq<Row>, pseudo: bool, t: string)
    requires early.line == late.line && Sees(early, late, rows, pseudo) && Writable(t)
    ensures Resolves(early, late, pseudo, t) && Rewritten(early, pseudo, t).Some?
    ensures |Rewritten(early, pseudo, t).value| <= |Skip(t)| + 11 * Words(t)
    decreases |t|
  {
    hide GetToken, Name, Skip, Sees, Knows, Predefined, Standing, Appends, ShowNat;
    var (tok, rest) := GetToken(t);
    TokenReads(t);
    if !tok.kind.End? {
      WritableResolves(early, late, rows, pseudo, rest);
      SkipShortens(rest);
      if tok.kind.Char? {
        SeenIsKnown(early, late, rows, pseudo, tok.text);
        KnownIsShort(early, late, rows, pseudo, tok.text, rest);
      }
      ResolvesRewrites(early, late, pseudo, t);
    }
  }

  lemma SkipShortens(t: string)
    ensures |Skip(t)| <= |t| && (IsSpace(Head(t)) ==> |Skip(t)| < |t|)
  {
  }

  lemma {:induction false} KnownIsShort(early: Scope, late: Scope, rows: seq<Row>, pseudo: bool, name: string,
                                        rest: string)
    requires Knows(early, late, pseudo, name) && Name(name) && !Appends(rest) && early.line == late.line
    ensures PseudoOf(name).Other? && Named(early.refs, name, rest) == Some((name, rest))
    ensures Standing(early, pseudo, name).Some? && |Standing(early, pseudo, name).value| <= |name| + 11
  {
    hide Name, ShowInt, Lookup;
    KnownStands(early, late, pseudo, name, rest);
    var found := Lookup(late.refs, name);
    if found.Some? && late.refs[found.value].kind.Label? {
      if Near(Number(late.refs[found.value].kind.at, late.line, pseudo)) {
        NearIsShort(Number(late.refs[found.value].kind.at, late.line, pseudo));
      }
    }
  }

  // ---- a row through pass 1 ----

  /** What pass 1 leaves of a row. */
  function LeftText(s: Scope, r: Row): string {
    var z := Rewritten(s, r.op >= OPNUM, r.operands);
    OpText(r.op) + (ModifierText(r.modifier) + (" " + if z.None? then "" else z.value))
  }

  /** The names of the opcodes are words, all different. */
  lemma OpTextIs(op: nat)
    requires op < EQUOP
    ensures var s := OpText(op);
            |s| == 3 && AllWord(s) && IsAlpha(s[0]) && Upper(s) == s && OpIndex(s) == op
  {
    hide Upper, Position;
    OpTextIsWord(op);
    PositionFinds(OPNAME, op);
    NameIs(Position(OPNAME, OPNAME[op]), op);
  }

  lemma OpTextIsWord(op: nat)
    requires op < EQUOP
    ensures var s := OPNAME[op]; |s| == 3 && AllWord(s) && IsAlpha(s[0]) && Upper(s) == s
  {
    var s := OPNAME[op];
    Letters(op);
    assert UpperChar(s[0]) == s[0] && UpperChar(s[1]) == s[1] && UpperChar(s[2]) == s[2];
  }

  lemma Letters(op: nat)
    requires op < EQUOP
    ensures var s := OPNAME[op]; |s| == 3 && 'A' <= s[0] <= 'Z' && 'A' <= s[1] <= 'Z' && 'A' <= s[2] <= 'Z'
  {
  }

  lemma NameIs(r: nat, op: nat)
    requires r <= op < EQUOP && OPNAME[r] == OPNAME[op]
    ensures r == op
  {
    assert Key(OPNAME[r]) == Key(OPNAME[op]);
  }

  lemma {:induction false} RowInstructs(early: Scope, late: Scope, rows: seq<Row>, r: Row)
    requires early.line == late.line && Sees(early, late, rows, r.op >= OPNUM) && RowFits(r)
    ensures |LeftText(early, r)| < MAXALLCHAR
    ensures InstructionText(early, CodeText(r)) == Some((r.op, LeftText(early, r)))
    ensures InstructionText(early, " " + CodeText(r)) == Some((r.op, LeftText(early, r)))
  {
    hide *;
    LeftIsShort(early, late, rows, r);
    RowTokens(r);
    TokensInstruct(early, r, CodeText(r));
    TokensInstruct(early, r, " " + CodeText(r));
  }

  lemma {:induction false} LeftIsShort(early: Scope, late: Scope, rows: seq<Row>, r: Row)
    requires early.line == late.line && Sees(early, late, rows, r.op >= OPNUM) && RowFits(r)
    ensures Rewritten(early, r.op >= OPNUM, r.operands).Some? && r.op < EQUOP && |LeftText(early, r)| < MAXALLCHAR
  {
    hide Rewritten, OpText, ModifierText, Sees, Predefined, Writable, Words, Clean, Plainly, Skip;
    WritableResolves(early, late, rows, r.op >= OPNUM, r.operands);
    SkipShortens(r.operands);
  }

  /** The front of a row, with white space before it or without. */
  predicate Fronts(t: string, r: Row) {
    var (tok, rest) := GetToken(t);
    tok == Token(Char, OpText(r.op)) && Run(rest) == (ModifierText(r.modifier), " " + r.operands)
  }

  lemma {:induction false} RowTokens(r: Row)
    requires r.op < EQUOP
    ensures Fronts(CodeText(r), r) && Fronts(" " + CodeText(r), r)
  {
    hide GetToken, OpText, Run, ModifierText;
    OpTextIs(r.op);
    ModifierRuns(r.modifier, " " + r.operands);
    WordToken(OpText(r.op), ModifierText(r.modifier) + (" " + r.operands));
    TokenSkips(" ", CodeText(r));
  }

  lemma {:induction false} TokensInstruct(s: Scope, r: Row, t: string)
    requires r.op < EQUOP && Fronts(t, r) && Rewritten(s, r.op >= OPNUM, r.operands).Some?
    ensures InstructionText(s, t) == Some((r.op, LeftText(s, r)))
  {
    hide GetToken, Rewritten, OpText, OpIndex, Run, Upper, ModifierText;
    OpTextIs(r.op);
    BlankRewrites(s, r.op >= OPNUM, r.operands);
    var z := Rewritten(s, r.op >= OPNUM, r.operands).value;
    assert OpText(r.op) + ModifierText(r.modifier) + " " + z
        == OpText(r.op) + (ModifierText(r.modifier) + (" " + z));
  }

  lemma {:induction false} BlankRewrites(s: Scope, pseudo: bool, t: string)
    ensures Rewritten(s, pseudo, " " + t) == Rewritten(s, pseudo, t)
  {
    TokenSkips(" ", t);
    hide GetToken;
  }

  lemma ModifierRuns(m: Option<Modifier>, t: string)
    requires t != "" && t[0] == ' '
    ensures Run(ModifierText(m) + t) == (ModifierText(m), t) && !IsWord(Head(ModifierText(m) + t))
  {
    hide ModName, Run;
    var x := ModifierText(m);
    RunTakes(x, t);
    if m.None? {
      assert x + t == t;
    }
  }

  /** The labels a row defines. */
  function Tags(r: Row): seq<string> {
    if r.tag.None? then [] else [r.tag.value]
  }

  /** Pass 1 takes a row for its label and its instruction. */
  lemma {:induction false} RowStarts(early: Scope, late: Scope, rows: seq<Row>, r: Row)
    requires early.Valid() && early.line == late.line && Sees(early, late, rows, r.op >= OPNUM) && RowFits(r)
    requires r.tag.Some? ==> Lookup(early.refs, r.tag.value).None?
    ensures LineStart(early, [], MAX_DEPTH, RowText(r), "") == Some(Opens(Tags(r), r.op, LeftText(early, r)))
  {
    hide Rewritten, OpText, OpIndex, CodeText, LineStart, InstructionText, LeftText, Sees, Lookup, Predefined;
    hide Writable, Words, Clean;
    RowInstructs(early, late, rows, r);
    CodeIsShort(r);
    var t := CodeText(r);
    if r.tag.Some? {
      TagStarts(early, MAX_DEPTH, r.tag.value, " " + t);
      InstructionStarts(early, [r.tag.value], MAX_DEPTH - 1, " " + t);
    } else {
      InstructionStarts(early, [], MAX_DEPTH, t);
    }
  }

  lemma CodeIsShort(r: Row)
    requires RowFits(r)
    ensures |CodeText(r)| < MAXALLCHAR - 1 && |r.operands| < MAXALLCHAR - 1
  {
    hide OpText, Predefined, Writable, Words, Clean, Plainly;
  }

  lemma {:induction false} TagStarts(s: Scope, fuel: nat, tag: string, t: string)
    requires s.Valid() && Plainly(tag) && Lookup(s.refs, tag).None? && t != "" && t[0] == ' ' && fuel > 0
    ensures LineStart(s, [], fuel, tag + t, "") == LineStart(s, [tag], fuel - 1, t, "")
  {
    hide GetToken, Name, LineStart, Lookup;
    WordToken(tag, t);
    TagIsWord(s, fuel, tag, t);
    assert [] + [tag] == [tag];
  }

  /** A label may end with a colon. */
  lemma {:induction false} ColonStarts(s: Scope, fuel: nat, tag: string, t: string)
    requires s.Valid() && Plainly(tag) && Lookup(s.refs, tag).None? && fuel > 0
    ensures LineStart(s, [], fuel, tag + (":" + t), "") == LineStart(s, [tag], fuel - 1, t, "")
  {
    hide GetToken, Name, LineStart, Lookup;
    WordToken(tag, ":" + t);
    TagIsWord(s, fuel, tag, ":" + t);
    assert [] + [tag] == [tag] && (":" + t)[1..] == t;
  }

  lemma {:induction false} TagIsWord(s: Scope, fuel: nat, tag: string, t: string)
    requires s.Valid() && fuel > 0 && GetToken(tag + t) == (Token(Char, tag), t)
    ensures LineStart(s, [], fuel, tag + t, "") == LineWord(s, [], fuel - 1, tag, t, "")
  {
    hide GetToken, LineWord;
  }

  // ---- a row through pass 2 ----

  /** Where the automaton is behind opcode and modifier, with how much of its
      depth left, and the parts there. */
  function AfterHead(r: Row): (nat, Where, Parts) {
    var p := UNREAD.(last := AtOp, filled := false, opcode := r.op);
    if r.op >= OPNUM then (MAX_DEPTH - 1, AtExpr, p)
    else if r.modifier.None? then (MAX_DEPTH - 1, AtModAddrExp, p)
    else
      (MAX_DEPTH - 3, AtAddrExpA,
       p.(last := AtModf, modifier := Some(Position(MODNAME, ModName(r.modifier.value)))))
  }

  lemma {:induction false} HeadScans(s: Scope, r: Row, z: string)
    requires s.Valid() && r.op < EQUOP && (r.op >= OPNUM ==> r.modifier.None?)
    ensures var (fuel, at, p) := AfterHead(r);
            ScanOn(s, MAX_DEPTH, OpText(r.op) + (ModifierText(r.modifier) + (" " + z)), AtOp, UNREAD)
            == ScanOn(s, fuel, z, at, p)
  {
    hide ScanOn, OpText, GetToken, Position, ModName;
    var t := ModifierText(r.modifier) + (" " + z);
    var p := UNREAD.(last := AtOp, filled := false, opcode := r.op);
    ModifierRuns(r.modifier, " " + z);
    OpcodeScansOn(s, MAX_DEPTH, r.op, t, UNREAD);
    if r.modifier.None? {
      assert t == " " + z;
      BlankScans(s, MAX_DEPTH - 1, z, if r.op < OPNUM then AtModAddrExp else AtExpr, p);
    } else {
      ModifierScansOn(s, MAX_DEPTH - 1, r.modifier.value, z, p);
    }
  }

  lemma {:induction false} OpcodeScansOn(s: Scope, fuel: nat, op: nat, t: string, p: Parts)
    requires s.Valid() && fuel > 0 && !IsWord(Head(t)) && op < EQUOP
    ensures ScanOn(s, fuel, OpText(op) + t, AtOp, p)
            == ScanOn(s, fuel - 1, t, if op < OPNUM then AtModAddrExp else AtExpr,
                      p.(last := AtOp, filled := false, opcode := op))
  {
    hide GetToken, OpText, OpIndex, Upper;
    OpTextIs(op);
    WordToken(OpText(op), t);
  }

  lemma {:induction false} ModifierScansOn(s: Scope, fuel: nat, m: Modifier, z: string, p: Parts)
    requires s.Valid() && fuel > 2
    ensures ScanOn(s, fuel, "." + ModName(m) + (" " + z), AtModAddrExp, p)
            == ScanOn(s, fuel - 2, z, AtAddrExpA,
                      p.(last := AtModf, filled := false, modifier := Some(Position(MODNAME, ModName(m)))))
  {
    hide GetToken, ScanOn, ModName, Position;
    var t := " " + z;
    ModNameIndex(m);
    SymbolToken('.', ModName(m) + t);
    WordToken(ModName(m), t);
    assert "." + ModName(m) + t == "." + (ModName(m) + t);
    DotScans(s, fuel, "." + (ModName(m) + t), ModName(m) + t, p);
    ModifierNameScans(s, fuel - 1, m, t, p.(last := AtModAddrExp, filled := false));
    BlankScans(s, fuel - 2, z, AtAddrExpA,
        p.(last := AtModf, filled := false, modifier := Some(Position(MODNAME, ModName(m)))));
  }

  lemma {:induction false} DotScans(s: Scope, fuel: nat, t: string, rest: string, p: Parts)
    requires s.Valid() && fuel > 0 && GetToken(t) == (Token(Modf, "."), rest)
    ensures ScanOn(s, fuel, t, AtModAddrExp, p) == ScanOn(s, fuel - 1, rest, AtModf, p.(last := AtModAddrExp,
        filled := false))
  {
    hide GetToken;
  }

  lemma {:induction false} ModifierNameScans(s: Scope, fuel: nat, m: Modifier, t: string, p: Parts)
    requires s.Valid() && fuel > 0 && GetToken(ModName(m) + t) == (Token(Char, ModName(m)), t)
    ensures ScanOn(s, fuel, ModName(m) + t, AtModf, p)
            == ScanOn(s, fuel - 1, t, AtAddrExpA,
                      p.(last := AtModf, filled := false, modifier := Some(Position(MODNAME, ModName(m)))))
  {
    ModNameIndex(m);
    hide GetToken, ModName, Upper, Position;
  }

  /** What pass 1 leaves of a row has the parts of the row itself. */
  lemma {:induction false} RowScans(early: Scope, late: Scope, rows: seq<Row>, r: Row)
    requires early.Valid() && late.Valid() && early.line == late.line && RowFits(r)
    requires Sees(early, late, rows, r.op >= OPNUM)
    ensures ScanOn(late, MAX_DEPTH, LeftText(early, r), AtOp, UNREAD)
            == ScanOn(late, MAX_DEPTH, CodeText(r), AtOp, UNREAD)
  {
    hide ScanOn, OpText, ModifierText, Rewritten, Resolves, Sees, Predefined, Writable, Words, Clean, Plainly, RowText;
    hide ModName, Position;
    var (fuel, at, p) := AfterHead(r);
    CodeIsShort(r);
    WritableResolves(early, late, rows, r.op >= OPNUM, r.operands);
    HeadScans(late, r, Rewritten(early, r.op >= OPNUM, r.operands).value);
    HeadScans(late, r, r.operands);
    EitherPass(early, late, r.operands, at, p, fuel, fuel);
  }

  /** It is assembled to what the row itself is, which is an instruction if its
      word is an opcode. */
  lemma {:induction false} RowIsCoded(cs: nat, early: Scope, late: Scope, rows: seq<Row>, r: Row, c: Coding)
    requires cs >= 1 && c.Valid() && c.line == early.line && RowFits(r)
    requires early.Valid() && late.Valid() && Sees(early, late.(line := c.line), rows, r.op >= OPNUM)
    ensures LineCoded(cs, late, MAX_DEPTH, LeftText(early, r), c) == LineCoded(cs, late, MAX_DEPTH, CodeText(r), c)
    ensures var q := LineCoded(cs, late, MAX_DEPTH, CodeText(r), c);
            q.Some? ==> (q.value.0.Some? <==> r.op < OPNUM)
  {
    hide ScanOn, LeftText, CodeText, Sees, RowFits, PseudoCoded, FieldsCoded, Fillable, Filled;
    RowScans(early, late.(line := c.line), rows, r);
    SeesItself(early, late.(line := c.line), rows, r.op >= OPNUM);
    RowKeepsOpcode(late.(line := c.line), rows, r);
    FilledKeeps(late.(line := c.line), r);
  }

  lemma FilledKeeps(s: Scope, r: Row)
    requires s.Valid()
    ensures var z := ScanOn(s, MAX_DEPTH, CodeText(r), AtOp, UNREAD);
            z.Some? ==> Zeroed(Filled(z.value)).opcode == z.value.opcode
  {
    hide ScanOn, CodeText;
  }

  lemma SeesItself(early: Scope, late: Scope, rows: seq<Row>, pseudo: bool)
    requires Sees(early, late, rows, pseudo)
    ensures Sees(late, late, rows, pseudo)
  {
    hide Place, Lookup, Predefined, Spot;
    forall name | !Predefined(name)
      ensures SeesName(late, late, rows, pseudo, name)
    {
      assert SeesName(early, late, rows, pseudo, name);
    }
  }

  lemma {:induction false} RowKeepsOpcode(s: Scope, rows: seq<Row>, r: Row)
    requires s.Valid() && Sees(s, s, rows, r.op >= OPNUM) && RowFits(r)
    ensures var z := ScanOn(s, MAX_DEPTH, CodeText(r), AtOp, UNREAD); z.Some? ==> z.value.opcode == r.op
  {
    hide ScanOn, OpText, ModifierText, Rewritten, Resolves, Sees, Predefined, Writable, Words, Clean, Plainly, RowText;
    hide ModName, Position;
    var (fuel, at, p) := AfterHead(r);
    CodeIsShort(r);
    WritableResolves(s, s, rows, r.op >= OPNUM, r.operands);
    HeadScans(s, r, r.operands);
    OpcodeStays(s, r.operands, at, p, fuel);
  }

  // ---- the symbols on the way ----

  /** The labels of the first `n` rows. */
  function TagRefs(rows: seq<Row>, n: nat): seq<Ref>
    requires n <= |rows|
  {
    if n == 0 then [] else TagRefs(rows, n - 1) + Labelled(Tags(rows[n - 1]), Count(rows, n - 1))
  }

  lemma LookupBehind(refs: seq<Ref>, tags: seq<string>, line: nat, name: string)
    ensures Lookup(refs + Labelled(tags, line), name)
            == if name in tags then Some(|refs|) else Lookup(refs, name)
  {
    if tags == [] {
      assert refs + [] == refs;
    } else {
      OneBehind(refs, Ref(tags, Label(line), false), name);
    }
  }

  lemma OneBehind(refs: seq<Ref>, r: Ref, name: string)
    ensures Lookup(refs + [r], name) == if name in r.names then Some(|refs|) else Lookup(refs, name)
  {
    var all := refs + [r];
    assert all[|all| - 1] == r && all[..|all| - 1] == refs;
  }

  /** A label is found from its row on, naming the instruction there. */
  lemma {:induction false} TagFound(refs: seq<Ref>, rows: seq<Row>, n: nat, name: string)
    requires WellMade(rows) && n <= |rows| && Lookup(refs, name).None?
    ensures var all := refs + TagRefs(rows, n);
            if Place(rows, name) < n then IsLabel(all, name, Spot(rows, name)) else Lookup(all, name).None?
  {
    hide Lookup, Place, RowFits, Count;
    if n == 0 {
      assert refs + [] == refs;
    } else {
      var before := refs + TagRefs(rows, n - 1);
      TagFound(refs, rows, n - 1, name);
      var tags := Tags(rows[n - 1]);
      assert refs + TagRefs(rows, n) == before + Labelled(tags, Count(rows, n - 1));
      LookupBehind(before, tags, Count(rows, n - 1), name);
      if name in tags {
        assert rows[n - 1].tag == Some(name) && Place(rows, name) == n - 1;
      }
    }
  }

  lemma {:induction false} PredefsAside(cfg: Config, n: nat, name: string)
    requires cfg.coreSize >= 1 && n <= 9 && !Predefined(name)
    ensures Lookup(PredefRefs(cfg, n), name).None?
  {
    hide PredefRefs, Constants;
    if n > 0 {
      PredefsAside(cfg, n - 1, name);
      PredefNext(cfg, n - 1);
      ConstantIsPredefined(cfg, n - 1);
      OneBehind(PredefRefs(cfg, n - 1), Ref([Constants(cfg)[n - 1].0], EquText(n), false), name);
    } else {
      NoPredefsYet(cfg);
    }
  }

  lemma ConstantIsPredefined(cfg: Config, k: nat)
    requires cfg.coreSize >= 1 && k < 9
    ensures Predefined(Constants(cfg)[k].0)
  {
  }

  /** The scope of pass 1 before row `k`. */
  function Early(cfg: Config, rows: seq<Row>, k: nat): (s: Scope)
    requires cfg.coreSize >= 1 && k <= |rows|
    ensures s.Valid() && s.line == Count(rows, k)
  {
    var lines := NumberedLines(Texts(rows));
    EarlyIsValid([lines] + PredefLists(cfg, 9), PredefRefs(cfg, 9), rows, k);
    Scope([lines] + PredefLists(cfg, 9), PredefRefs(cfg, 9) + TagRefs(rows, k), Count(rows, k))
  }

  lemma EarlyIsValid(lists: seq<seq<Line>>, refs: seq<Ref>, rows: seq<Row>, k: nat)
    requires k <= |rows| && Scope(lists, refs, 0).Valid()
    ensures forall n :: Scope(lists, refs + TagRefs(rows, k), n).Valid()
  {
    hide Count;
    TagsAreLabels(rows, k);
  }

  lemma {:induction false} TagsAreLabels(rows: seq<Row>, k: nat)
    requires k <= |rows|
    ensures forall j :: 0 <= j < |TagRefs(rows, k)| ==> TagRefs(rows, k)[j].kind.Label?
  {
    if k > 0 {
      TagsAreLabels(rows, k - 1);
    }
  }

  /** All labels known: the scope of pass 2, `more` lists there too. */
  function Late(cfg: Config, rows: seq<Row>, more: seq<seq<Line>>): (s: Scope)
    requires cfg.coreSize >= 1
    ensures forall n :: s.(line := n).Valid()
  {
    var s := Early(cfg, rows, |rows|);
    MoreLists(s, more);
    s.(lists := s.lists + more, line := 0)
  }

  lemma MoreLists(s: Scope, more: seq<seq<Line>>)
    requires s.Valid()
    ensures forall n :: s.(lists := s.lists + more, line := n).Valid()
  {
  }

  /** Both passes see the labels. */
  lemma {:induction false} RowsSeen(cfg: Config, rows: seq<Row>, more: seq<seq<Line>>, k: nat, pseudo: bool)
    requires cfg.coreSize >= 1 && WellMade(rows) && k <= |rows| <= MAX_LINES
    ensures Sees(Early(cfg, rows, k), Late(cfg, rows, more).(line := Count(rows, k)), rows, pseudo)
  {
    hide WellMade, TagRefs, PredefRefs, PredefLists, Place, Lookup, IsLabel, Texts, NumberedLines, Predefined, Count;
    forall name | !Predefined(name)
      ensures SeesName(Early(cfg, rows, k), Late(cfg, rows, more).(line := Count(rows, k)), rows, pseudo, name)
    {
      TagSeen(cfg, rows, |rows|, name);
      TagSeen(cfg, rows, k, name);
    }
  }

  lemma TagSeen(cfg: Config, rows: seq<Row>, n: nat, name: string)
    requires cfg.coreSize >= 1 && WellMade(rows) && n <= |rows| && !Predefined(name)
    ensures var all := PredefRefs(cfg, 9) + TagRefs(rows, n);
            if Place(rows, name) < n then IsLabel(all, name, Spot(rows, name)) else Lookup(all, name).None?
  {
    hide *;
    PredefsAside(cfg, 9, name);
    TagFound(PredefRefs(cfg, 9), rows, n, name);
  }

  // ---- pass 1 over the rows ----

  /** What pass 1 has written after `k` rows. */
  function Left(cfg: Config, rows: seq<Row>, k: nat): (r: seq<Line>)
    requires cfg.coreSize >= 1 && k <= |rows|
    ensures |r| == k
  {
    if k == 0 then []
    else Left(cfg, rows, k - 1) + [Line(LeftText(Early(cfg, rows, k - 1), rows[k - 1]), k)]
  }

  lemma {:induction false} RowIsLeft(cfg: Config, rows: seq<Row>, k: nat)
    requires cfg.coreSize >= 1 && k < |rows| <= MAX_LINES && WellMade(rows)
    ensures LineStart(Early(cfg, rows, k), [], MAX_DEPTH, RowText(rows[k]), "")
            == Some(Opens(Tags(rows[k]), rows[k].op, LeftText(Early(cfg, rows, k), rows[k])))
  {
    hide Sees, LineStart, LeftText, RowText, Early, Lookup, RowFits, Late;
    var r := rows[k];
    RowsSeen(cfg, rows, [], k, r.op >= OPNUM);
    LateLine(cfg, rows, k);
    assert RowFits(r);
    if r.tag.Some? {
      TagIsNew(cfg, rows, k);
    }
    RowStarts(Early(cfg, rows, k), Late(cfg, rows, []).(line := Count(rows, k)), rows, r);
  }

  lemma LateLine(cfg: Config, rows: seq<Row>, k: nat)
    requires cfg.coreSize >= 1 && k <= |rows|
    ensures Early(cfg, rows, k).line == Count(rows, k)
  {
    hide *;
  }

  lemma TagIsNew(cfg: Config, rows: seq<Row>, k: nat)
    requires cfg.coreSize >= 1 && k < |rows| && WellMade(rows) && rows[k].tag.Some?
    ensures Lookup(Early(cfg, rows, k).refs, rows[k].tag.value).None?
  {
    hide Lookup, TagRefs, PredefRefs, PredefLists, Place, Count, WellMade;
    TagIsPlaced(rows, k);
    TagSeen(cfg, rows, k, rows[k].tag.value);
  }

  lemma TagIsPlaced(rows: seq<Row>, k: nat)
    requires WellMade(rows) && k < |rows| && rows[k].tag.Some?
    ensures Place(rows, rows[k].tag.value) == k && Plainly(rows[k].tag.value) && !Predefined(rows[k].tag.value)
  {
    hide Place, Predefined, Plainly, Writable, Words, Clean, RowText;
    assert RowFits(rows[k]);
    var there := rows[Place(rows, rows[k].tag.value)].tag;
    assert there == rows[k].tag;
  }

  /** Pass 1 after `k` rows. */
  function Rowed(cfg: Config, rows: seq<Row>, k: nat): (p: Progress)
    requires cfg.coreSize >= 1 && cfg.warriors <= 0xFFFF_FFFF && k <= |rows|
    ensures p.Valid()
  {
    Progress(Early(cfg, rows, k), Left(cfg, rows, k), k, k == 0 || rows[k - 1].op != ENDOP, 0, 0,
             StartRegisters(cfg), 0, true)
  }

  lemma {:induction false} RowDone(cfg: Config, rows: seq<Row>, k: nat)
    requires cfg.coreSize >= 1 && cfg.warriors <= 0xFFFF_FFFF && k < |rows| <= MAX_LINES && WellMade(rows)
    ensures Rowed(cfg, rows, k).open
    ensures LineDone(NumberedLines(Texts(rows)), MAX_DEPTH, Rowed(cfg, rows, k)) == Some(Rowed(cfg, rows, k + 1))
  {
    hide LineStart, LeftText, RowText, PredefRefs, PredefLists, RowFits, EquLines, ForDone, Passed;
    hide StartRegisters, Labelled;
    RowIsLeft(cfg, rows, k);
    var refs := PredefRefs(cfg, 9);
    var more := Labelled(Tags(rows[k]), Count(rows, k));
    assert refs + TagRefs(rows, k) + more == refs + (TagRefs(rows, k) + more);
  }

  lemma {:induction false} RowsDone(cfg: Config, rows: seq<Row>, k: nat)
    requires cfg.coreSize >= 1 && cfg.warriors <= 0xFFFF_FFFF && k <= |rows| <= MAX_LINES && WellMade(rows)
    ensures TextDone(NumberedLines(Texts(rows)), MAX_DEPTH, Rowed(cfg, rows, k)) == Some(Rowed(cfg, rows, |rows|))
    decreases |rows| - k
  {
    hide LineDone, Early, Left, WellMade, StartRegisters;
    if k < |rows| {
      RowDone(cfg, rows, k);
      RowsDone(cfg, rows, k + 1);
    }
  }

  // ---- pass 2 over the rows ----

  /** The rows themselves, their labels taken off. */
  function Codes(rows: seq<Row>): (r: seq<Line>)
    ensures |r| == |rows|
  {
    seq(|rows|, k requires 0 <= k < |rows| => Line(CodeText(rows[k]), k + 1))
  }

  /** From what pass 1 left, row by row, pass 2 makes what it makes of the rows. */
  lemma {:induction false} RowsCoded(cfg: Config, rows: seq<Row>, more: seq<seq<Line>>, k: nat, c: Coding)
    requires cfg.coreSize >= 1 && WellMade(rows) && k <= |rows| <= MAX_LINES && c.Valid() && c.line == 0
    ensures var s := Late(cfg, rows, more);
            var q := LinesCoded(cfg.coreSize, s, MAX_DEPTH, Codes(rows), k, c);
            && LinesCoded(cfg.coreSize, s, MAX_DEPTH, Left(cfg, rows, |rows|), k, c) == q
            && (q.Some? ==> q.value.1.line == Count(rows, k))
  {
    hide LinesCoded, LineCoded, Left, RowFits, Sees, LeftText, CodeText, Early, Late;
    var s := Late(cfg, rows, more);
    var lines := Left(cfg, rows, |rows|);
    if k == 0 {
      NothingIsCoded(cfg.coreSize, s, MAX_DEPTH, lines, c);
      NothingIsCoded(cfg.coreSize, s, MAX_DEPTH, Codes(rows), c);
    } else {
      RowsCoded(cfg, rows, more, k - 1, c);
      CodedNext(cfg.coreSize, s, MAX_DEPTH, lines, k - 1, c);
      CodedNext(cfg.coreSize, s, MAX_DEPTH, Codes(rows), k - 1, c);
      var before := LinesCoded(cfg.coreSize, s, MAX_DEPTH, Codes(rows), k - 1, c);
      if before.Some? {
        LeftAt(cfg, rows, |rows|, k - 1);
        RowsSeen(cfg, rows, more, k - 1, rows[k - 1].op >= OPNUM);
        LateLine(cfg, rows, k - 1);
        assert RowFits(rows[k - 1]);
        RowIsCoded(cfg.coreSize, Early(cfg, rows, k - 1), s, rows, rows[k - 1], before.value.1);
      }
    }
  }

  lemma {:induction false} LeftAt(cfg: Config, rows: seq<Row>, n: nat, k: nat)
    requires cfg.coreSize >= 1 && k < n <= |rows|
    ensures Left(cfg, rows, n)[k] == Line(LeftText(Early(cfg, rows, k), rows[k]), k + 1)
  {
    hide LeftText, Early;
    if k < n - 1 {
      LeftAt(cfg, rows, n - 1, k);
    }
  }

  /** One pass over the rows with all labels known. */
  function OnePass(cfg: Config, rows: seq<Row>): Option<(seq<Instruction>, int, Option<int>)>
    requires cfg.coreSize >= 1 && cfg.warriors <= 0xFFFF_FFFF
  {
    var c := Coding(0, StartRegisters(cfg), 0, 0, None);
    var s := Late(cfg, rows, [Left(cfg, rows, |rows|)]);
    var q := LinesCoded(cfg.coreSize, s, MAX_DEPTH, Codes(rows), |rows|, c);
    if q.None? then None else Some((q.value.0, q.value.1.offset, q.value.1.pin))
  }

  /** Two passes are one: a source of such rows is the program that assembling
      each row as it stands gives, all labels known, wherever they are defined. */
  lemma {:induction false} TwoPassesAreOne(cfg: Config, rows: seq<Row>)
    requires cfg.coreSize >= 1 && cfg.warriors <= 0xFFFF_FFFF && WellMade(rows) && |rows| <= MAX_LINES
    requires 1 <= Count(rows, |rows|) <= cfg.maxLength && Count(rows, |rows|) <= MAXINSTR
    ensures Program(cfg, Texts(rows)) == OnePass(cfg, rows)
  {
    hide TextDone, LinesCoded, Left, WellMade, PredefLists, PredefRefs, TagRefs, StartRegisters, NumberedLines, Codes;
    var lines := NumberedLines(Texts(rows));
    RowsStart(cfg, rows);
    RowsDone(cfg, rows, 0);
    var p := Rowed(cfg, rows, |rows|);
    RowsCoded(cfg, rows, [p.out], |rows|, Coding(0, p.regs, p.save, 0, None));
  }

  lemma RowsStart(cfg: Config, rows: seq<Row>)
    requires cfg.coreSize >= 1 && cfg.warriors <= 0xFFFF_FFFF
    ensures Started(cfg, NumberedLines(Texts(rows))) == Rowed(cfg, rows, 0)
  {
    hide PredefRefs, PredefLists, StartRegisters;
    assert PredefRefs(cfg, 9) + [] == PredefRefs(cfg, 9);
  }

  // ---- reading them ----

  /** Rows are read as they are written. */
  lemma RowsAreTame(rows: seq<Row>)
    requires WellMade(rows)
    ensures AllTame(Texts(rows)) && forall k :: 0 <= k < |rows| ==> |Texts(rows)[k]| < MAXALLCHAR - 1
  {
    hide Tame, RowText, RowFits;
    forall k | 0 <= k < |rows|
      ensures Tame(Texts(rows)[k]) && |Texts(rows)[k]| < MAXALLCHAR - 1
    {
      assert RowFits(rows[k]);
      RowIsTame(rows[k]);
    }
  }

  lemma RowIsTame(r: Row)
    requires RowFits(r)
    ensures Tame(RowText(r)) && |RowText(r)| < MAXALLCHAR - 1
  {
    hide GetToken, CodeText, Clean, OpText, Predefined, Name, Writable, Words;
    RowIsClean(r);
    if r.tag.Some? {
      WordToken(r.tag.value, " " + CodeText(r));
    } else {
      CodeIsWord(r);
    }
    CleanIsTame(RowText(r));
  }

  lemma CodeIsWord(r: Row)
    requires r.op < EQUOP
    ensures GetToken(CodeText(r)).0.kind.Char?
  {
    hide GetToken, OpText, ModifierText, Run;
    OpTextIs(r.op);
    ModifierRuns(r.modifier, " " + r.operands);
    WordToken(OpText(r.op), ModifierText(r.modifier) + (" " + r.operands));
  }

  lemma RowIsClean(r: Row)
    requires RowFits(r)
    ensures Clean(RowText(r))
  {
    hide Clean, OpText, ModName, Predefined, Name, Writable, Words;
    SomeAreClean();
    OpTextIs(r.op);
    WordIsClean(OpText(r.op));
    CleanJoins(" ", r.operands);
    if r.modifier.Some? {
      ModifierIsWord(r.modifier.value);
      WordIsClean(ModName(r.modifier.value));
      CleanJoins(".", ModName(r.modifier.value));
    }
    CleanJoins(ModifierText(r.modifier), " " + r.operands);
    CleanJoins(OpText(r.op), ModifierText(r.modifier) + (" " + r.operands));
    if r.tag.Some? {
      WordIsClean(r.tag.value);
      CleanJoins(" ", CodeText(r));
      CleanJoins(r.tag.value, " " + CodeText(r));
    }
  }

  lemma ModifierIsWord(m: Modifier)
    ensures AllWord(ModName(m))
  {
  }

  lemma WordIsClean(s: string)
    requires AllWord(s)
    ensures Clean(s)
  {
  }

  lemma SomeAreClean()
    ensures Clean("") && Clean(" ") && Clean(".")
  {
  }
}
