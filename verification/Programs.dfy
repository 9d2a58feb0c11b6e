/** Programs as they are written by hand: instructions with labels, optional
    modifiers and modes, labels and numbers as operands, and END with the label to
    start at. What every line means, and that assembling gives just that
    (src/asm.rs:1664-1823). */
module Programs {
  import opened Redcode
  import opened Configs
  import opened Text
  import opened Evaluator
  import opened AsmText
  import opened Symbols
  import opened Encodings
  import opened Listings
  import E = Expressions
  import opened Labels
  import opened Assembler
  import opened Sources

  datatype Target = To(name: string) | Value(n: int)

  datatype Operand = Operand(mode: Option<Mode>, target: Target)

  /** A line of a program. */
  datatype Entry = Entry(tag: Option<string>, op: Opcode, modifier: Option<Modifier>, a: Operand, b: Option<Operand>)

  // ---- how it is written ----

  function TargetText(t: Target): string {
    match t
    case To(name) => name
    case Value(n) => ShowInt(n)
  }

  function ModeText(m: Option<Mode>): string {
    if m.None? then "" else [Symbol(m.value)]
  }

  function OperandText(o: Operand): string {
    ModeText(o.mode) + TargetText(o.target)
  }

  /** `loop`, `#4, @ptr`. */
  function OperandsText(e: Entry): string {
    OperandText(e.a) + if e.b.None? then "" else ", " + OperandText(e.b.value)
  }

  function RowOf(e: Entry): Row {
    Row(e.tag, OpIndex(OpName(e.op)), e.modifier, OperandsText(e))
  }

  /** `END start`. */
  function EndRow(start: string): Row {
    Row(None, ENDOP, None, start)
  }

  /** The lines, and END behind them where a start is given. */
  function Rows(es: seq<Entry>, start: Option<string>): (r: seq<Row>)
    ensures |r| == |es| + if start.None? then 0 else 1
    ensures forall k :: 0 <= k < |es| ==> r[k] == RowOf(es[k])
    ensures start.Some? ==> r[|es|] == EndRow(start.value)
  {
    seq(|es|, k requires 0 <= k < |es| => RowOf(es[k])) + if start.None? then [] else [EndRow(start.value)]
  }

  // ---- what it means ----

  /** The number of an operand of instruction `k`: for a label, how far away its
      instruction is. */
  function Meant(rows: seq<Row>, k: nat, t: Target): int {
    match t
    case To(name) => Spot(rows, name) - k
    case Value(n) => n
  }

  function ModeMeant(m: Option<Mode>): Mode {
    if m.None? then Direct else m.value
  }

  /** Instruction `k`, its labels resolved. */
  function Resolved(cs: nat, rows: seq<Row>, e: Entry, k: nat): (i: Instruction)
    requires cs >= 1
    ensures Normalised(cs, i)
  {
    var a, x := ModeMeant(e.a.mode), Meant(rows, k, e.a.target) % cs;
    var (aMode, aField, bMode, bField) :=
      if e.b.Some? then (a, x, ModeMeant(e.b.value.mode), Meant(rows, k, e.b.value.target) % cs)
      else if e.op.Dat? then (Immediate, 0, a, x)
      else (a, x, Direct, 0);
    Instruction(e.op, if e.modifier.Some? then e.modifier.value else DefaultModifier(e.op, aMode, bMode), aMode, aField,
                bMode, bField)
  }

  function Code(cs: nat, es: seq<Entry>, rows: seq<Row>): (r: seq<Instruction>)
    requires cs >= 1
    ensures |r| == |es|
  {
    seq(|es|, k requires 0 <= k < |es| => Resolved(cs, rows, es[k], k))
  }

  /** Where the program starts. */
  function Start(cs: nat, rows: seq<Row>, start: Option<string>): nat
    requires cs >= 1
  {
    if start.None? then 0 else Spot(rows, start.value) % cs
  }

  // ---- which programs ----

  predicate IsTag(rows: seq<Row>, name: string) {
    Plainly(name) && !Predefined(name) && Place(rows, name) < |rows|
  }

  /** A target that can be written: a number of 32 bits, or a label of the rows. */
  predicate Reachable(rows: seq<Row>, t: Target) {
    match t
    case To(name) => IsTag(rows, name)
    case Value(n) => Near(n)
  }

  predicate OperandsFit(rows: seq<Row>, e: Entry) {
    Reachable(rows, e.a.target) && (e.b.Some? ==> Reachable(rows, e.b.value.target))
  }

  /** It has the operands its opcode needs, and room on its line. */
  predicate EntryFits(rows: seq<Row>, e: Entry) {
    && OperandsFit(rows, e) && (e.b.None? ==> e.op in {Dat, Spl, Jmp, Nop})
    && (e.tag.Some? ==> Plainly(e.tag.value) && !Predefined(e.tag.value))
    && |RowText(RowOf(e))| + 11 * Words(OperandsText(e)) < MAXALLCHAR - 1
  }

  predicate StartFits(rows: seq<Row>, start: string) {
    IsTag(rows, start) && |start| + 15 < MAXALLCHAR - 1
  }

  /** Lines that fit, each label defined once. */
  predicate Fits(es: seq<Entry>, start: Option<string>) {
    && (forall k :: 0 <= k < |es| ==> EntryFits(Rows(es, start), es[k]))
    && (forall j, k :: 0 <= j < k < |es| && es[j].tag.Some? ==> es[j].tag != es[k].tag)
    && (start.Some? ==> StartFits(Rows(es, start), start.value))
  }

  // ---- they are rows ----

  /** The end of a line, or a comma. */
  predicate Apart(u: string) {
    u == "" || u[0] == ','
  }

  lemma CommaNext(u: string)
    requires Apart(u)
    ensures var k := GetToken(u).0.kind; !k.Numb? && !k.Char?
    ensures !IsWord(Head(u)) && !Appends(u) && !IsSpace(Head(u))
  {
  }

  lemma {:induction false} NumberIsWritable(n: int, u: string)
    requires Apart(u) && Writable(u)
    ensures Writable(ShowInt(n) + u)
  {
    hide GetToken, Name, ShowNat;
    var digits := ShowNat(if n < 0 then -n else n);
    NumberToken(digits, u);
    CommaNext(u);
    if n < 0 {
      SymbolToken('-', digits + u);
      assert "-" + (digits + u) == ShowInt(n) + u;
    }
  }

  lemma {:induction false} TargetIsWritable(rows: seq<Row>, t: Target, u: string)
    requires Reachable(rows, t) && Apart(u) && Writable(u)
    ensures Writable(TargetText(t) + u)
  {
    hide GetToken, Name, ShowNat, Place, Predefined;
    CommaNext(u);
    match t
    case To(name) =>
      WordToken(name, u);
    case Value(n) =>
      NumberIsWritable(n, u);
  }

  lemma {:induction false} OperandIsWritable(rows: seq<Row>, o: Operand, u: string)
    requires Reachable(rows, o.target) && Apart(u) && Writable(u)
    ensures Writable(OperandText(o) + u)
  {
    hide GetToken, TargetText, Reachable, Name;
    TargetIsWritable(rows, o.target, u);
    OperandSplits(o, u);
    if o.mode.Some? {
      SymbolToken(Symbol(o.mode.value), TargetText(o.target) + u);
    }
  }

  lemma {:induction false} OperandsAreWritable(rows: seq<Row>, e: Entry)
    requires OperandsFit(rows, e)
    ensures Writable(OperandsText(e))
  {
    hide GetToken, OperandText, Reachable, Name;
    NothingThere();
    OperandsSplit(e);
    if e.b.Some? {
      var y := OperandText(e.b.value) + "";
      OperandIsWritable(rows, e.b.value, "");
      BlankIsWritable(y);
      SymbolToken(',', " " + y);
      OperandIsWritable(rows, e.a, SecondText(e.b.value));
    } else {
      OperandIsWritable(rows, e.a, "");
    }
  }

  lemma {:induction false} BlankIsWritable(t: string)
    ensures Writable(" " + t) == Writable(t)
  {
    TokenSkips(" ", t);
    hide GetToken, Name;
  }

  lemma OperandsAreClean(rows: seq<Row>, e: Entry)
    requires OperandsFit(rows, e)
    ensures Clean(OperandsText(e))
  {
    hide Clean, OperandText, Reachable;
    OperandIsClean(rows, e.a);
    CommaIsClean();
    if e.b.Some? {
      OperandIsClean(rows, e.b.value);
      CleanJoins(", ", OperandText(e.b.value));
    }
    CleanJoins(OperandText(e.a), if e.b.None? then "" else ", " + OperandText(e.b.value));
  }

  lemma CommaIsClean()
    ensures Clean("") && Clean(", ")
  {
  }

  lemma OperandIsClean(rows: seq<Row>, o: Operand)
    requires Reachable(rows, o.target)
    ensures Clean(OperandText(o))
  {
    hide ShowNat, Name, Place, Predefined;
  }

  lemma EntryIsRow(rows: seq<Row>, e: Entry)
    requires EntryFits(rows, e)
    ensures RowFits(RowOf(e))
  {
    hide OperandsText, OperandsFit, RowText, Words, Predefined, Plainly, Clean, Writable, OpName, OpIndex;
    OpNameIndex(e.op);
    OperandsAreWritable(rows, e);
    OperandsAreClean(rows, e);
  }

  lemma EndIsRow(rows: seq<Row>, start: string)
    requires StartFits(rows, start)
    ensures RowFits(EndRow(start))
  {
    hide Plainly, Predefined, Place, OpText, Writable, Words, Clean;
    OpTextIs(ENDOP);
    NameIsOperand(start);
  }

  lemma {:induction false} NameIsOperand(name: string)
    requires Plainly(name) && !Predefined(name)
    ensures Writable(name) && Words(name) == 1 && Clean(name)
  {
    hide GetToken, Name, Predefined, Clean;
    WordToken(name, "");
    NothingThere();
    assert name + "" == name;
    WordIsClean(name);
  }

  lemma RowsAreWellMade(es: seq<Entry>, start: Option<string>)
    requires Fits(es, start)
    ensures WellMade(Rows(es, start))
  {
    hide EntryFits, RowFits, StartFits, RowOf;
    var rows := Rows(es, start);
    forall k | 0 <= k < |rows|
      ensures RowFits(rows[k])
      ensures if k < |es| then rows[k].op < OPNUM && rows[k].tag == es[k].tag else rows[k].tag.None?
    {
      if k < |es| {
        RowIsInstruction(es[k]);
        EntryIsRow(rows, es[k]);
      } else {
        EndIsRow(rows, start.value);
      }
    }
  }

  // ---- an operand in pass 2 ----

  /** The number of a target, from the instruction of a scope. */
  function MeantFrom(rows: seq<Row>, s: Scope, t: Target): int {
    Meant(rows, s.line, t)
  }

  /** The parts with an operand in: its mode where it is written, its number. */
  function WithOperand(p: Parts, at: Where, o: Operand, n: int): Parts {
    Holding(if o.mode.None? then p else WithMode(p, at, Symbol(o.mode.value)), at, n)
  }

  /** The steps a target takes, and an operand. */
  function TargetSteps(t: Target, at: Where, n: int): (k: nat)
    ensures 1 <= k <= 3
  {
    if t.To? then 1 else Steps(at, n)
  }

  function OperandSteps(o: Operand, at: Where, n: int): (k: nat)
    ensures 1 <= k <= 4
  {
    if o.mode.None? then TargetSteps(o.target, at, n) else 1 + TargetSteps(o.target, FieldOf(at), n)
  }

  /** A label of the rows to pass 2. */
  lemma TagIsSeen(s: Scope, rows: seq<Row>, pseudo: bool, name: string)
    requires Sees(s, s, rows, pseudo) && IsTag(rows, name)
    ensures IsLabel(s.refs, name, Spot(rows, name)) && Near(Number(Spot(rows, name), s.line, pseudo))
  {
    hide Place, Lookup, Predefined, Plainly, Spot;
    assert SeesName(s, s, rows, pseudo, name);
  }

  lemma {:induction false} TargetScans(s: Scope, rows: seq<Row>, fuel: nat, t: Target, u: string, at: Where, p: Parts)
    requires s.Valid() && Sees(s, s, rows, false) && Reachable(rows, t) && Apart(u) && fuel > 6 && Fresh(p, at)
    requires p.opcode < OPNUM
    ensures var n := MeantFrom(rows, s, t);
            ScanOn(s, fuel, TargetText(t) + u, at, p)
            == ScanOn(s, fuel - TargetSteps(t, at, n), u, FieldOf(at), Holding(p, at, n))
  {
    hide GetToken, ScanOn, ShowNat, Name, Holding, Gathered, Spot, Sees;
    var n := MeantFrom(rows, s, t);
    CommaNext(u);
    TargetReaches(s, rows, t);
    NearIsShort(n);
    HoldingIs(p, at, n);
    match t
    case To(name) =>
      TagIsSeen(s, rows, false, name);
      WordToken(name, u);
      NameScans(s, fuel, name + u, name, u, Spot(rows, name), at, p);
    case Value(_) =>
      NumberScans(s, fuel, n, u, at, p);
  }

  lemma TargetReaches(s: Scope, rows: seq<Row>, t: Target)
    requires Sees(s, s, rows, false) && Reachable(rows, t)
    ensures Near(MeantFrom(rows, s, t)) && (t.To? ==> Plainly(t.name))
  {
    hide Sees, Spot, Plainly, Place, Predefined;
    if t.To? {
      TagIsSeen(s, rows, false, t.name);
    }
  }

  /** An operand, its mode taken off. */
  lemma OperandIs(p: Parts, at: Where, o: Operand, n: int)
    requires AtOperand(at) && Fresh(p, at)
    ensures if o.mode.None? then
              WithOperand(p, at, o, n) == Holding(p, at, n) && OperandSteps(o, at, n) == TargetSteps(o.target, at, n)
            else
              var q := WithMode(p.(last := at, filled := false), at, Symbol(o.mode.value));
              && q.opcode == p.opcode && Fresh(q, FieldOf(at)) && FieldOf(FieldOf(at)) == FieldOf(at)
              && WithOperand(p, at, o, n) == Holding(q, FieldOf(at), n)
              && OperandSteps(o, at, n) == 1 + TargetSteps(o.target, FieldOf(at), n)
  {
    hide Symbol, NumText, ModeOf;
  }

  lemma OperandSplits(o: Operand, u: string)
    ensures OperandText(o) + u
            == if o.mode.None? then TargetText(o.target) + u else [Symbol(o.mode.value)] + (TargetText(o.target) + u)
  {
    hide TargetText, Symbol;
    assert "" + TargetText(o.target) == TargetText(o.target);
  }

  lemma {:induction false} ModeScans(s: Scope, fuel: nat, c: char, t: string, at: Where, p: Parts)
    requires s.Valid() && AtOperand(at) && IsAddrSym(c) && fuel > 0
    ensures ScanOn(s, fuel, [c] + t, at, p)
            == ScanOn(s, fuel - 1, t, FieldOf(at), WithMode(p.(last := at, filled := false), at, c))
  {
    hide GetToken, ScanOn, WithMode, FieldOf;
    SymbolToken(c, t);
    MoveScans(s, fuel, [c] + t, Token(Addr, [c]), t, at, p);
  }

  lemma {:induction false} OperandScans(s: Scope, rows: seq<Row>, fuel: nat, o: Operand, u: string, at: Where, p: Parts)
    requires s.Valid() && Sees(s, s, rows, false) && Reachable(rows, o.target) && Apart(u) && fuel > 7
    requires AtOperand(at) && Fresh(p, at) && p.opcode < OPNUM
    ensures var n := MeantFrom(rows, s, o.target);
            ScanOn(s, fuel, OperandText(o) + u, at, p)
            == ScanOn(s, fuel - OperandSteps(o, at, n), u, FieldOf(at), WithOperand(p, at, o, n))
  {
    hide *;
    var t := TargetText(o.target) + u;
    OperandSplits(o, u);
    OperandIs(p, at, o, MeantFrom(rows, s, o.target));
    if o.mode.Some? {
      var c := Symbol(o.mode.value);
      ModeScans(s, fuel, c, t, at, p);
      TargetScans(s, rows, fuel - 1, o.target, u, FieldOf(at), WithMode(p.(last := at, filled := false), at, c));
    } else {
      TargetScans(s, rows, fuel, o.target, u, at, p);
    }
  }

  /** The operands of a row, from where they start. */
  function OperandsIn(rows: seq<Row>, s: Scope, e: Entry, at: Where, p: Parts): Parts {
    var q := WithOperand(p, at, e.a, MeantFrom(rows, s, e.a.target));
    if e.b.None? then q
    else WithOperand(q, AtAddrExpB, e.b.value, MeantFrom(rows, s, e.b.value.target))
  }

  function SecondText(o: Operand): string {
    "," + (" " + (OperandText(o) + ""))
  }

  lemma OperandsSplit(e: Entry)
    ensures OperandsText(e) == OperandText(e.a) + if e.b.None? then "" else SecondText(e.b.value)
    ensures e.b.Some? ==> Apart(SecondText(e.b.value))
  {
    hide OperandText;
    if e.b.Some? {
      var y := OperandText(e.b.value);
      assert "," + (" " + (y + "")) == ", " + y;
    }
  }

  lemma {:induction false} CommaScans(s: Scope, fuel: nat, y: string, p: Parts)
    requires s.Valid() && fuel > 0
    ensures ScanOn(s, fuel, "," + (" " + y), AtExpFs, p) == ScanOn(s, fuel - 1, y, AtAddrExpB, p.(last := AtExpFs))
  {
    hide GetToken, ScanOn;
    SymbolToken(',', " " + y);
    MoveScans(s, fuel, "," + (" " + y), Token(Fsep, ","), " " + y, AtExpFs, p);
    BlankScans(s, fuel - 1, y, AtAddrExpB, p.(last := AtExpFs));
  }

  /** An operand collected. */
  lemma OperandHolds(p: Parts, at: Where, o: Operand, n: int)
    requires AtOperand(at)
    ensures var q := WithOperand(p, at, o, n);
            && q.opcode == p.opcode && q.last == FieldOf(at) && q.filled && q.(last := FieldOf(at)) == q
            && (!at.AtAddrExpB? && p.bExpr == "" ==> Fresh(q, AtAddrExpB))
  {
    hide NumText, Symbol;
  }

  /** The last operand of a line. */
  lemma {:induction false} LastScans(s: Scope, rows: seq<Row>, fuel: nat, o: Operand, at: Where, p: Parts)
    requires s.Valid() && Sees(s, s, rows, false) && Reachable(rows, o.target) && fuel > 8
    requires AtOperand(at) && Fresh(p, at) && p.opcode < OPNUM
    ensures ScanOn(s, fuel, OperandText(o) + "", at, p)
            == Some(WithOperand(p, at, o, MeantFrom(rows, s, o.target)))
  {
    hide GetToken, ScanOn, OperandText, Sees, MeantFrom, Reachable, WithOperand, OperandSteps;
    var n := MeantFrom(rows, s, o.target);
    NothingThere();
    OperandHolds(p, at, o, n);
    OperandScans(s, rows, fuel, o, "", at, p);
    EndScans(s, fuel - OperandSteps(o, at, n), "", FieldOf(at), WithOperand(p, at, o, n));
  }

  lemma {:induction false} SecondScans(s: Scope, rows: seq<Row>, fuel: nat, o: Operand, q: Parts)
    requires s.Valid() && Sees(s, s, rows, false) && Reachable(rows, o.target) && fuel > 9 && Fresh(q, AtAddrExpB)
    requires q.opcode < OPNUM && q.last.AtExpFs?
    ensures ScanOn(s, fuel, SecondText(o), AtExpFs, q)
            == Some(WithOperand(q, AtAddrExpB, o, MeantFrom(rows, s, o.target)))
  {
    hide GetToken, ScanOn, OperandText, Sees, MeantFrom, Reachable, WithOperand;
    CommaScans(s, fuel, OperandText(o) + "", q);
    LastScans(s, rows, fuel - 1, o, AtAddrExpB, q);
  }

  lemma {:induction false} OperandsScan(s: Scope, rows: seq<Row>, fuel: nat, e: Entry, at: Where, p: Parts)
    requires s.Valid() && Sees(s, s, rows, false) && OperandsFit(rows, e) && fuel > 20
    requires (at.AtModAddrExp? || at.AtAddrExpA?) && p.aExpr == "" && p.bExpr == "" && p.opcode < OPNUM
    ensures ScanOn(s, fuel, OperandsText(e), at, p) == Some(OperandsIn(rows, s, e, at, p))
  {
    hide GetToken, ScanOn, OperandText, OperandsText, Sees, MeantFrom, Reachable, WithOperand, OperandSteps;
    hide SecondText, Apart;
    OperandsSplit(e);
    if e.b.Some? {
      var n := MeantFrom(rows, s, e.a.target);
      var q := WithOperand(p, at, e.a, n);
      var f := fuel - OperandSteps(e.a, at, n);
      OperandHolds(p, at, e.a, n);
      OperandScans(s, rows, fuel, e.a, SecondText(e.b.value), at, p);
      SecondScans(s, rows, f, e.b.value, q);
    } else {
      LastScans(s, rows, fuel, e.a, at, p);
    }
  }

  // ---- a line assembled ----

  /** What pass 2 collects from a line. */
  function EntryParts(rows: seq<Row>, s: Scope, e: Entry): Parts {
    var (fuel, at, p) := AfterHead(RowOf(e));
    OperandsIn(rows, s, e, at, p)
  }

  lemma {:induction false} EntryScans(s: Scope, rows: seq<Row>, e: Entry)
    requires s.Valid() && Sees(s, s, rows, false) && OperandsFit(rows, e)
    ensures ScanOn(s, MAX_DEPTH, CodeText(RowOf(e)), AtOp, UNREAD) == Some(EntryParts(rows, s, e))
  {
    hide ScanOn, OperandsText, OpName, OpIndex, OpText, ModifierText, Sees, OperandsIn, OperandsFit, Position, ModName;
    OpNameIndex(e.op);
    var (fuel, at, p) := AfterHead(RowOf(e));
    HeadScans(s, RowOf(e), OperandsText(e));
    OperandsScan(s, rows, fuel, e, at, p);
  }

  lemma ZeroEvaluates(regs: seq<int>, save: nat)
    requires St(regs, save, Fine).Valid()
    ensures EvalExpr("0", regs, save) == (Fine, 0, St(regs, save, Fine))
  {
    hide Eval;
    E.EvaluatesTree(E.Lit("", "0"), "", regs, save);
    assert "" + "0" + "" == "0" && Decimal("0") == 0 by {
      DecimalShows(0);
    }
  }

  /** One operand is enough for its opcode. */
  lemma SingleIndex(op: Opcode)
    ensures var i := OpIndex(OpName(op));
            i < OPNUM && OpcodeOf(i) == op && (op.Dat? <==> i == 12)
            && (op in {Spl, Jmp, Nop} ==> i in {11, 13, 16})
  {
    hide OpIndex, OpName;
    OpNameIndex(op);
  }

  /** A line's parts, completed as its opcode asks. */
  lemma EntryFills(rows: seq<Row>, s: Scope, e: Entry)
    requires e.b.None? ==> e.op in {Dat, Spl, Jmp, Nop}
    ensures var p := EntryParts(rows, s, e);
            var n := NumText(MeantFrom(rows, s, e.a.target));
            && Fillable(p) && p.opcode == OpIndex(OpName(e.op)) && Zeroed(Filled(p)) == Filled(p)
            && p.modifier == (if e.modifier.None? then None else Some(Position(MODNAME, ModName(e.modifier.value))))
            && var f := Filled(p);
               (f.aMode, f.aExpr, f.bMode, f.bExpr) ==
               if e.b.Some? then
                 (ModeMeant(e.a.mode), n, ModeMeant(e.b.value.mode), NumText(MeantFrom(rows, s, e.b.value.target)))
               else if e.op.Dat? then (Immediate, "0", ModeMeant(e.a.mode), n)
               else (ModeMeant(e.a.mode), n, Direct, "0")
    ensures Filled(EntryParts(rows, s, e)).modifier == EntryParts(rows, s, e).modifier
    ensures Filled(EntryParts(rows, s, e)).opcode == EntryParts(rows, s, e).opcode
  {
    hide OpIndex, OpName, Position, ShowInt, MeantFrom, Symbol;
    SingleIndex(e.op);
  }

  /** The expressions of a line, evaluated. */
  lemma EntryEvaluates(rows: seq<Row>, s: Scope, e: Entry, regs: seq<int>, save: nat)
    requires St(regs, save, Fine).Valid() && Near(MeantFrom(rows, s, e.a.target))
    requires e.b.Some? ==> Near(MeantFrom(rows, s, e.b.value.target))
    requires e.b.None? ==> e.op in {Dat, Spl, Jmp, Nop}
    ensures var f := Filled(EntryParts(rows, s, e));
            var st := St(regs, save, Fine);
            var n := MeantFrom(rows, s, e.a.target);
            && EvalExpr(f.aExpr, regs, save) == (Fine, if e.b.None? && e.op.Dat? then 0 else n, st)
            && EvalExpr(f.bExpr, regs, save)
               == (Fine, if e.b.Some? then MeantFrom(rows, s, e.b.value.target) else if e.op.Dat? then n else 0, st)
  {
    hide EvalExpr, EntryParts, Filled, MeantFrom, NumText, OpIndex, OpName;
    EntryFills(rows, s, e);
    ZeroEvaluates(regs, save);
    NumberEvaluates(MeantFrom(rows, s, e.a.target), regs, save);
    if e.b.Some? {
      NumberEvaluates(MeantFrom(rows, s, e.b.value.target), regs, save);
    }
  }

  /** A line is assembled to its instruction. */
  lemma {:induction false} EntryIsCoded(cs: nat, s: Scope, rows: seq<Row>, e: Entry, c: Coding)
    requires cs >= 1 && c.Valid() && s.(line := c.line).Valid() && s.Valid() && EntryFits(rows, e)
    requires Sees(s.(line := c.line), s.(line := c.line), rows, false)
    ensures LineCoded(cs, s, MAX_DEPTH, CodeText(RowOf(e)), c)
            == Some((Some(Resolved(cs, rows, e, c.line)), c.(line := c.line + 1)))
  {
    hide ScanOn, EvalExpr, EntryParts, Filled, NumText, OpIndex, OpName, ModName, Position, OpcodeOf, ModifierOf;
    hide DefaultModifier, OperandsText, Predefined, Plainly, Sees, Fillable, Near, RowText, Reachable, CodeText, RowOf;
    hide Words;
    var here := s.(line := c.line);
    EntryScans(here, rows, e);
    EntryFills(rows, here, e);
    TargetReaches(here, rows, e.a.target);
    if e.b.Some? {
      TargetReaches(here, rows, e.b.value.target);
    }
    EntryEvaluates(rows, here, e, c.regs, c.save);
    SingleIndex(e.op);
    if e.modifier.Some? {
      ModNameIndex(e.modifier.value);
    }
  }

  /** END sets the start. */
  lemma {:induction false} EndIsCoded(cs: nat, s: Scope, rows: seq<Row>, start: string, c: Coding)
    requires cs >= 1 && c.Valid() && s.(line := c.line).Valid() && s.Valid() && StartFits(rows, start) && c.offset == 0
    requires Sees(s.(line := c.line), s.(line := c.line), rows, true)
    ensures LineCoded(cs, s, MAX_DEPTH, CodeText(EndRow(start)), c)
            == Some((None, c.(offset := Spot(rows, start) % cs)))
  {
    hide ScanOn, EvalExpr, NumText, CodeText, Sees, IsTag, Spot;
    var here := s.(line := c.line);
    EndParts(here, rows, start);
    TagIsSeen(here, rows, true, start);
    NumberEvaluates(Spot(rows, start), c.regs, c.save);
    HoldingStays(AfterHead(EndRow(start)).2, Spot(rows, start));
  }

  lemma {:induction false} EndParts(s: Scope, rows: seq<Row>, start: string)
    requires s.Valid() && Sees(s, s, rows, true) && IsTag(rows, start)
    ensures ScanOn(s, MAX_DEPTH, CodeText(EndRow(start)), AtOp, UNREAD)
            == Some(Holding(AfterHead(EndRow(start)).2, AtExpr, Spot(rows, start)))
  {
    hide ScanOn, GetToken, Sees, Spot, OpText, Holding, Gathered, Name, Place, Predefined;
    var (fuel, at, p) := AfterHead(EndRow(start));
    HeadScans(s, EndRow(start), start);
    TagIsSeen(s, rows, true, start);
    NearIsShort(Spot(rows, start));
    WordToken(start, "");
    NothingThere();
    assert start + "" == start;
    NameScans(s, fuel, start, start, "", Spot(rows, start), AtExpr, p);
    HoldingIs(p, AtExpr, Spot(rows, start));
    EndScans(s, fuel - 1, "", AtExpr, Holding(p, AtExpr, Spot(rows, start)));
    HoldingStays(p, Spot(rows, start));
  }

  lemma HoldingStays(p: Parts, d: int)
    ensures var q := Holding(p, AtExpr, d); q.last == AtExpr && q.filled && q.bExpr != ""
  {
  }

  // ---- the program ----

  /** Before row `k` there are as many instructions. */
  lemma {:induction false} EntriesCount(es: seq<Entry>, start: Option<string>, k: nat)
    requires k <= |es|
    ensures Count(Rows(es, start), k) == k
    ensures start.Some? ==> Count(Rows(es, start), |Rows(es, start)|) == Count(Rows(es, start), |es|)
  {
    hide RowOf;
    if k > 0 {
      EntriesCount(es, start, k - 1);
      RowIsInstruction(es[k - 1]);
    }
  }

  lemma RowIsInstruction(e: Entry)
    ensures RowOf(e).op < OPNUM && RowOf(e).tag == e.tag
  {
    hide OpName, OpIndex, OperandsText;
    OpNameIndex(e.op);
  }

  lemma {:induction false} EntriesCoded(cfg: Config, es: seq<Entry>, start: Option<string>, more: seq<seq<Line>>,
                                        k: nat, c: Coding)
    requires cfg.coreSize >= 1 && Fits(es, start) && k <= |es| <= MAXINSTR && c.Valid() && c.line == 0
    ensures var rows := Rows(es, start);
            LinesCoded(cfg.coreSize, Late(cfg, rows, more), MAX_DEPTH, Codes(rows), k, c)
            == Some((Code(cfg.coreSize, es, rows)[..k], c.(line := k)))
  {
    hide LinesCoded, LineCoded, EntryFits, Sees, CodeText, Early, Late, Resolved, RowOf, StartFits;
    var rows := Rows(es, start);
    var s := Late(cfg, rows, more);
    if k == 0 {
      NothingIsCoded(cfg.coreSize, s, MAX_DEPTH, Codes(rows), c);
    } else {
      EntriesCoded(cfg, es, start, more, k - 1, c);
      CodedNext(cfg.coreSize, s, MAX_DEPTH, Codes(rows), k - 1, c);
      LateSees(cfg, es, start, more, k - 1, false);
      assert EntryFits(rows, es[k - 1]);
      EntryIsCoded(cfg.coreSize, s, rows, es[k - 1], c.(line := k - 1));
      var code := Code(cfg.coreSize, es, rows);
      assert code[..k] == code[..k - 1] + [Resolved(cfg.coreSize, rows, es[k - 1], k - 1)];
    }
  }

  lemma LateSees(cfg: Config, es: seq<Entry>, start: Option<string>, more: seq<seq<Line>>, k: nat, pseudo: bool)
    requires cfg.coreSize >= 1 && Fits(es, start) && k <= |es| <= MAXINSTR
    ensures var s := Late(cfg, Rows(es, start), more).(line := k); Sees(s, s, Rows(es, start), pseudo)
  {
    hide Sees, Fits, Early, Late;
    var rows := Rows(es, start);
    RowsAreWellMade(es, start);
    EntriesCount(es, start, k);
    RowsSeen(cfg, rows, more, k, pseudo);
    SeesItself(Early(cfg, rows, k), Late(cfg, rows, more).(line := k), rows, pseudo);
  }

  lemma {:induction false} ProgramCoded(cfg: Config, es: seq<Entry>, start: Option<string>)
    requires cfg.coreSize >= 1 && cfg.warriors <= 0xFFFF_FFFF && Fits(es, start) && |es| <= MAXINSTR
    ensures var rows := Rows(es, start);
            OnePass(cfg, rows) == Some((Code(cfg.coreSize, es, rows), Start(cfg.coreSize, rows, start), None))
  {
    hide LinesCoded, LineCoded, Sees, CodeText, Early, Late, Code, Left, StartFits, EntryFits, Spot;
    var rows, n := Rows(es, start), |es|;
    var more := [Left(cfg, rows, |rows|)];
    var s := Late(cfg, rows, more);
    var c := Coding(0, StartRegisters(cfg), 0, 0, None);
    var code := Code(cfg.coreSize, es, rows);
    EntriesCoded(cfg, es, start, more, n, c);
    assert code[..n] == code;
    if start.Some? {
      CodedNext(cfg.coreSize, s, MAX_DEPTH, Codes(rows), n, c);
      LateSees(cfg, es, start, more, n, true);
      EndIsCoded(cfg.coreSize, s, rows, start.value, c.(line := n));
      assert code + [] == code;
    }
  }

  /** A program is assembled to the instructions its labels resolve to, starting
      at the label END names: every label stands for the distance to its
      instruction, wherever that is. All that assembling asks of a source holds. */
  lemma ProgramAssembles(cfg: Config, es: seq<Entry>, start: Option<string>)
    requires cfg.Check(2) == Accepted && cfg.warriors <= 0xFFFF_FFFF && Fits(es, start)
    requires 1 <= |es| <= cfg.maxLength
    ensures var rows := Rows(es, start);
            && AllTame(Texts(rows)) && |Joined(Texts(rows))| <= MAX_SOURCE
            && Program(cfg, Texts(rows))
               == Some((Code(cfg.coreSize, es, rows), Start(cfg.coreSize, rows, start), None))
  {
    hide Joined, Program, AllTame, Code, RowText, OnePass, Fits, WellMade, Start, Count;
    var rows := Rows(es, start);
    CheckedBounds(cfg);
    RowsAreWellMade(es, start);
    RowsAreTame(rows);
    JoinedLength(Texts(rows), MAXALLCHAR);
    EntriesCount(es, start, |es|);
    TwoPassesAreOne(cfg, rows);
    ProgramCoded(cfg, es, start);
  }

  /** The number of an operand of instruction `k`: written as it is, or the
      distance to the instruction its label stands before. */
  predicate Names(es: seq<Entry>, k: nat, t: Target, n: int) {
    match t
    case To(name) => exists v :: 0 <= v < |es| && es[v].tag == Some(name) && n == v - k
    case Value(x) => n == x
  }

  /** Field `f` holds it, around the core. */
  ghost predicate Holds(cs: nat, es: seq<Entry>, k: nat, t: Target, f: nat)
    requires cs >= 1
  {
    exists n :: Names(es, k, t, n) && f == n % cs
  }

  /** Instruction `i` is line `k`: opcode, modifier and modes as written, the
      modifier the standard one and a mode direct where none is written; a single
      operand of DAT is its second, of SPL, JMP and NOP its first. */
  ghost predicate IsLine(cs: nat, es: seq<Entry>, k: nat, i: Instruction)
    requires cs >= 1 && k < |es|
  {
    var e := es[k];
    var mode := if e.a.mode.Some? then e.a.mode.value else Direct;
    && i.op == e.op && (if e.modifier.Some? then i.modifier == e.modifier.value else Standard(i))
    && (if e.b.None? && e.op == Dat then
          i.aMode == Immediate && i.a == 0 && i.bMode == mode && Holds(cs, es, k, e.a.target, i.b)
        else i.aMode == mode && Holds(cs, es, k, e.a.target, i.a))
    && (e.b.None? && e.op != Dat ==> i.bMode == Direct && i.b == 0)
    && (e.b.Some? ==>
          && i.bMode == (if e.b.value.mode.Some? then e.b.value.mode.value else Direct)
          && Holds(cs, es, k, e.b.value.target, i.b))
  }

  /** So every line of a program is assembled to what it says, and the program
      starts at the instruction its END names. */
  lemma ProgramReads(cfg: Config, es: seq<Entry>, start: Option<string>)
    requires cfg.Check(2) == Accepted && cfg.warriors <= 0xFFFF_FFFF && Fits(es, start)
    requires 1 <= |es| <= cfg.maxLength
    ensures var p := Program(cfg, Texts(Rows(es, start)));
            && p.Some? && |p.value.0| == |es| && p.value.2 == None
            && (forall k :: 0 <= k < |es| ==> IsLine(cfg.coreSize, es, k, p.value.0[k]))
            && (start == None ==> p.value.1 == 0)
            && forall v :: 0 <= v < |es| && start.Some? && es[v].tag == start ==> p.value.1 == v % cfg.coreSize
  {
    hide Program, Fits, IsLine, Resolved, Start;
    ProgramAssembles(cfg, es, start);
    CheckedBounds(cfg);
    var rows := Rows(es, start);
    forall k | 0 <= k < |es|
      ensures IsLine(cfg.coreSize, es, k, Code(cfg.coreSize, es, rows)[k])
    {
      ResolvedIsLine(cfg.coreSize, es, start, k);
    }
    StartsThere(cfg.coreSize, es, start);
  }

  /** A label of the lines is before the instruction it names. */
  lemma TagStands(es: seq<Entry>, start: Option<string>, name: string)
    requires Fits(es, start) && Place(Rows(es, start), name) < |Rows(es, start)|
    ensures var v := Spot(Rows(es, start), name); v < |es| && es[v].tag == Some(name)
    ensures forall v :: 0 <= v < |es| && es[v].tag == Some(name) ==> v == Spot(Rows(es, start), name)
  {
    hide EntryFits, StartFits, RowOf, Count;
    var rows := Rows(es, start);
    var v := Place(rows, name);
    if v < |es| {
      RowIsInstruction(es[v]);
    }
    EntriesCount(es, start, if v < |es| then v else 0);
  }

  lemma TargetNames(es: seq<Entry>, start: Option<string>, k: nat, t: Target)
    requires Fits(es, start) && Reachable(Rows(es, start), t)
    ensures Names(es, k, t, Meant(Rows(es, start), k, t))
  {
    hide Fits, Spot, Place, Plainly, Predefined, Rows;
    match t
    case To(name) => TagStands(es, start, name);
    case Value(_) =>
  }

  lemma ResolvedIsLine(cs: nat, es: seq<Entry>, start: Option<string>, k: nat)
    requires cs >= 1 && Fits(es, start) && k < |es|
    ensures IsLine(cs, es, k, Resolved(cs, Rows(es, start), es[k], k))
  {
    hide *;
    EntryHolds(cs, es, start, k);
    HeldIsLine(cs, es, Rows(es, start), k);
  }

  lemma HeldIsLine(cs: nat, es: seq<Entry>, rows: seq<Row>, k: nat)
    requires cs >= 1 && k < |es| && Holds(cs, es, k, es[k].a.target, Meant(rows, k, es[k].a.target) % cs)
    requires es[k].b.Some? ==> Holds(cs, es, k, es[k].b.value.target, Meant(rows, k, es[k].b.value.target) % cs)
    ensures IsLine(cs, es, k, Resolved(cs, rows, es[k], k))
  {
    hide Names, Meant, Standard, Holds, Resolved;
    var e := es[k];
    ResolvedParts(cs, rows, e, k, Meant(rows, k, e.a.target) % cs,
        if e.b.Some? then Meant(rows, k, e.b.value.target) % cs else 0);
  }

  lemma ResolvedParts(cs: nat, rows: seq<Row>, e: Entry, k: nat, x: nat, y: nat)
    requires cs >= 1 && x == Meant(rows, k, e.a.target) % cs
    requires e.b.Some? ==> y == Meant(rows, k, e.b.value.target) % cs
    ensures var i := Resolved(cs, rows, e, k);
            && i.op == e.op && (if e.modifier.Some? then i.modifier == e.modifier.value else Standard(i))
            && (if e.b.None? && e.op == Dat then
                  i.aMode == Immediate && i.a == 0 && i.bMode == ModeMeant(e.a.mode) && i.b == x
                else i.aMode == ModeMeant(e.a.mode) && i.a == x)
            && (e.b.None? && e.op != Dat ==> i.bMode == Direct && i.b == 0)
            && (e.b.Some? ==> i.bMode == ModeMeant(e.b.value.mode) && i.b == y)
  {
    hide Meant, DefaultModifier, Standard, ModeMeant;
    DefaultIsStandard(Resolved(cs, rows, e, k));
  }

  lemma EntryHolds(cs: nat, es: seq<Entry>, start: Option<string>, k: nat)
    requires Fits(es, start) && k < |es| && cs >= 1
    ensures Holds(cs, es, k, es[k].a.target, Meant(Rows(es, start), k, es[k].a.target) % cs)
    ensures es[k].b.Some? ==>
              Holds(cs, es, k, es[k].b.value.target, Meant(Rows(es, start), k, es[k].b.value.target) % cs)
  {
    hide Names, Meant, Reachable, Rows, RowText, RowOf, Words, Plainly, Predefined, StartFits;
    assert EntryFits(Rows(es, start), es[k]);
    TargetNames(es, start, k, es[k].a.target);
    if es[k].b.Some? {
      TargetNames(es, start, k, es[k].b.value.target);
    }
  }

  lemma StartsThere(cs: nat, es: seq<Entry>, start: Option<string>)
    requires cs >= 1 && Fits(es, start)
    ensures start == None ==> Start(cs, Rows(es, start), start) == 0
    ensures forall v :: 0 <= v < |es| && start.Some? && es[v].tag == start ==>
              Start(cs, Rows(es, start), start) == v % cs
  {
    hide EntryFits, Spot, Place, Plainly, Predefined, Rows;
    if start.Some? {
      TagStands(es, start, start.value);
    }
  }

  /** And each of its fields leads to the label it names, around the core and
      wherever the warrior is loaded. */
  lemma EntryLeads(cs: nat, load: nat, rows: seq<Row>, e: Entry, k: nat, name: string)
    requires cs >= 1
    ensures var i := Resolved(cs, rows, e, k);
            && (e.a.target == To(name) ==>
                  (load + k + if e.b.None? && e.op.Dat? then i.b else i.a) % cs == (load + Spot(rows, name)) % cs)
            && (e.b.Some? && e.b.value.target == To(name) ==>
                  (load + k + i.b) % cs == (load + Spot(rows, name)) % cs)
  {
    hide *;
    var i, v := Resolved(cs, rows, e, k), Spot(rows, name);
    FieldsAre(cs, rows, e, k, name);
    if e.a.target == To(name) {
      FieldLeads(cs, load, k, v, if e.b.None? && e.op.Dat? then i.b else i.a);
    }
    if e.b.Some? && e.b.value.target == To(name) {
      FieldLeads(cs, load, k, v, i.b);
    }
  }

  lemma FieldLeads(cs: nat, load: nat, k: nat, v: nat, field: nat)
    requires cs >= 1 && field == (v - k) % cs
    ensures (load + k + field) % cs == (load + v) % cs
  {
    var x, d := load + k, v - k;
    AroundTheCore(x, d, cs);
    assert x + d == load + v;
  }

  lemma FieldsAre(cs: nat, rows: seq<Row>, e: Entry, k: nat, name: string)
    requires cs >= 1
    ensures var i, field := Resolved(cs, rows, e, k), (Spot(rows, name) - k) % cs;
            && (e.a.target == To(name) ==> (if e.b.None? && e.op.Dat? then i.b else i.a) == field)
            && (e.b.Some? && e.b.value.target == To(name) ==> i.b == field)
  {
    hide DefaultModifier, Spot;
  }
}
