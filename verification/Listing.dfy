/** The listing of a warrior (src/redcode.rs:282-315), and what both passes make
    of one of its lines. */
module Listings {
  import Bits
  import opened Redcode
  import opened Text
  import opened Evaluator
  import E = Expressions
  import opened AsmText

  function OpName(op: Opcode): (s: string)
    ensures |s| == 3 && AllWord(s) && IsAlpha(s[0])
  {
    match op
    case Dat => "DAT" case Mov => "MOV" case Add => "ADD" case Sub => "SUB" case Mul => "MUL" case Div => "DIV"
    case Mod => "MOD" case Jmp => "JMP" case Jmz => "JMZ" case Jmn => "JMN" case Djn => "DJN" case Spl => "SPL"
    case Slt => "SLT" case Cmp => "CMP" case Seq => "SEQ" case Sne => "SNE" case Nop => "NOP" case Ldp => "LDP"
    case Stp => "STP"
  }

  function ModName(m: Modifier): (s: string)
    ensures 1 <= |s| <= 2 && AllWord(s) && IsAlpha(s[0])
  {
    match m
    case MA => "A" case MB => "B" case MAB => "AB" case MBA => "BA" case MF => "F" case MX => "X" case MI => "I"
  }

  function Symbol(m: Mode): (c: char)
    ensures IsAddrSym(c) && ModeOf(c) == m
  {
    match m
    case Immediate => '#' case Direct => '$' case AIndirect => '*' case BIndirect => '@'
    case APredec => '{' case BPredec => '<' case APostinc => '}' case BPostinc => '>'
  }

  /** `MOV.I $0, $1`. */
  function LineText(cs: nat, i: Instruction): string
    requires Normalised(cs, i)
  {
    var y := [Symbol(i.bMode)] + ShowInt(Signed(i.b, cs));
    var x := [Symbol(i.aMode)] + (ShowInt(Signed(i.a, cs)) + (", " + y));
    OpName(i.op) + ("." + (ModName(i.modifier) + (" " + x)))
  }

  /** The same line after pass 1. */
  function ShortText(cs: nat, i: Instruction): string
    requires Normalised(cs, i)
  {
    var y := [Symbol(i.bMode)] + ShowInt(Signed(i.b, cs));
    var x := [Symbol(i.aMode)] + (ShowInt(Signed(i.a, cs)) + ("," + y));
    OpName(i.op) + ("." + (ModName(i.modifier) + (" " + x)))
  }

  function StartText(start: nat): string {
    "ORG " + ShowNat(start)
  }

  /** The lines of the listing. */
  function Lines(cs: nat, w: Warrior): (r: seq<string>)
    requires NormalisedWarrior(cs, w)
    ensures |r| == |w.code| + 1
  {
    seq(|w.code| + 1, k requires 0 <= k <= |w.code| => if k == 0 then StartText(w.start)
        else LineText(cs, w.code[k - 1]))
  }

  /** The listing itself, every line ended. */
  function Joined(lines: seq<string>): string {
    if lines == [] then "" else lines[0] + ("\n" + Joined(lines[1..]))
  }

  // ---- names and their numbers ----

  lemma OpNameIndex(op: Opcode)
    ensures Upper(OpName(op)) == OpName(op)
    ensures OpIndex(OpName(op)) < OPNUM && OpcodeOf(OpIndex(OpName(op))) == op
  {
    hide OpName;
    AlreadyUpper(op);
    NameAt(op);
    PositionFinds(OPNAME, OpPosition(op));
    NameDetermines(OpIndex(OpName(op)), op);
  }

  lemma AlreadyUpper(op: Opcode)
    ensures Upper(OpName(op)) == OpName(op)
  {
    var s := OpName(op);
    assert UpperChar(s[0]) == s[0] && UpperChar(s[1]) == s[1] && UpperChar(s[2]) == s[2];
  }

  lemma NameAt(op: Opcode)
    ensures OPNAME[OpPosition(op)] == OpName(op)
  {
  }

  /** The letters of a name, as a number. */
  function Key(s: string): int
    requires |s| == 3
  {
    s[0] as int * 10000 + s[1] as int * 100 + s[2] as int
  }

  lemma NameDetermines(r: nat, op: Opcode)
    requires r < EQUOP && OPNAME[r] == OpName(op)
    ensures r == OpPosition(op)
  {
    assert Key(OPNAME[r]) == Key(OpName(op));
  }

  function OpPosition(op: Opcode): (r: nat)
    ensures r < OPNUM && OpcodeOf(r) == op
  {
    match op
    case Mov => 0 case Add => 1 case Sub => 2 case Mul => 3 case Div => 4 case Mod => 5 case Jmz => 6 case Jmn => 7
    case Djn => 8 case Cmp => 9 case Slt => 10 case Spl => 11 case Dat => 12 case Jmp => 13
    case Seq => 14 case Sne => 15
    case Nop => 16 case Ldp => 17 case Stp => 18
  }

  lemma {:induction false} PositionFinds(names: seq<string>, k: nat)
    requires k < |names|
    ensures Position(names, names[k]) <= k
  {
    if k > 0 {
      PositionFinds(names[1..], k - 1);
    }
  }

  lemma ModNameIndex(m: Modifier)
    ensures Upper(ModName(m)) == ModName(m)
    ensures Position(MODNAME, ModName(m)) < 7 && ModifierOf(Position(MODNAME, ModName(m))) == m
  {
    var s := ModName(m);
    assert UpperChar(s[0]) == s[0] && (|s| == 2 ==> UpperChar(s[1]) == s[1]);
    PositionFinds(MODNAME, ModPosition(m));
    var r := Position(MODNAME, s);
    assert MODNAME[r] == s && |MODNAME[r]| == |s| && MODNAME[r][0] == s[0];
  }

  function ModPosition(m: Modifier): (r: nat)
    ensures r < 7 && MODNAME[r] == ModName(m)
  {
    match m
    case MA => 0 case MB => 1 case MAB => 2 case MBA => 3 case MF => 4 case MX => 5 case MI => 6
  }

  lemma StartNameIndex()
    ensures Upper("ORG") == "ORG" && OpIndex("ORG") == ORGOP
  {
    StartUpper();
    StartPosition();
    hide OpIndex, Upper;
    StartDetermines(OpIndex("ORG"));
  }

  lemma StartUpper()
    ensures Upper("ORG") == "ORG"
  {
    var s := "ORG";
    assert UpperChar(s[0]) == s[0] && UpperChar(s[1]) == s[1] && UpperChar(s[2]) == s[2];
  }

  lemma StartPosition()
    ensures OpIndex("ORG") < EQUOP && OPNAME[OpIndex("ORG")] == "ORG"
  {
    hide Position;
    var k := ORGOP;
    assert OPNAME[k] == "ORG";
    PositionFinds(OPNAME, k);
  }

  lemma StartDetermines(r: nat)
    requires r < EQUOP && OPNAME[r] == "ORG"
    ensures r == ORGOP
  {
    assert Key(OPNAME[r]) == Key("ORG");
  }

  // ---- pass 1 on a line ----

  lemma {:induction false} RunTakes(x: string, t: string)
    requires (forall i :: 0 <= i < |x| ==> !IsSpace(x[i])) && (t == "" || IsSpace(t[0]))
    ensures Run(x + t) == (x, t)
  {
    if x == "" {
      assert x + t == t;
    } else {
      assert (x + t)[1..] == x[1..] + t;
      RunTakes(x[1..], t);
      assert [x[0]] + x[1..] == x;
    }
  }

  /** One more token in front. */
  lemma SqueezeOne(pad: string, tok: Token, t: string, u: string)
    requires AllSpace(pad) && GetToken(u) == (tok, t)
    requires !tok.kind.End? && !tok.kind.Char? && !tok.kind.Comm? && Squeeze(t).Some?
    ensures Squeeze(pad + u) == Some(tok.text + Squeeze(t).value)
  {
    TokenSkips(pad, u);
  }

  lemma SymbolToken(c: char, t: string)
    ensures IsAddrSym(c) ==> GetToken([c] + t) == (Token(Addr, [c]), t)
    ensures c == '-' ==> GetToken([c] + t) == (Token(Expr, [c]), t)
    ensures c == ',' ==> GetToken([c] + t) == (Token(Fsep, [c]), t)
    ensures c == '.' ==> GetToken([c] + t) == (Token(Modf, [c]), t)
  {
    assert ([c] + t)[0] == c && ([c] + t)[1..] == t;
  }

  lemma SqueezeInt(n: int, t: string)
    requires !IsDigit(Head(t)) && Squeeze(t).Some?
    ensures Squeeze(ShowInt(n) + t) == Some(ShowInt(n) + Squeeze(t).value)
  {
    hide GetToken, Squeeze, ShowNat;
    SqueezeNat(if n < 0 then -n else n, t);
    if n < 0 {
      var u := ShowNat(-n) + t;
      SymbolToken('-', u);
      SqueezeOne("", Token(Expr, "-"), u, "-" + u);
      InFront("-", ShowNat(-n), t);
      InFront("-", ShowNat(-n), Squeeze(t).value);
    }
  }

  lemma SqueezeNat(n: nat, t: string)
    requires !IsDigit(Head(t)) && Squeeze(t).Some?
    ensures Squeeze(ShowNat(n) + t) == Some(ShowNat(n) + Squeeze(t).value)
  {
    hide GetToken, Squeeze, ShowNat;
    NumberToken(ShowNat(n), t);
    SqueezeOne("", Token(Numb, ShowNat(n)), t, ShowNat(n) + t);
    InFront("", ShowNat(n), t);
  }

  lemma InFront(x: string, y: string, z: string)
    ensures x + (y + z) == x + y + z && "" + (x + (y + z)) == x + (y + z) && "" + (y + z) == y + z
  {
  }

  /** Operands lose their spaces. */
  lemma SqueezeOperands(a: Mode, x: int, b: Mode, y: int)
    ensures Squeeze(" " + ([Symbol(a)] + (ShowInt(x) + (", " + ([Symbol(b)] + ShowInt(y))))))
            == Some([Symbol(a)] + (ShowInt(x) + ("," + ([Symbol(b)] + ShowInt(y)))))
  {
    NothingToSqueeze();
    hide GetToken, Squeeze, ShowInt, Symbol;
    var last := [Symbol(b)] + ShowInt(y);
    SqueezeInt(y, "");
    assert ShowInt(y) + "" == ShowInt(y);
    SymbolToken(Symbol(b), ShowInt(y));
    SqueezeOne(" ", Token(Addr, [Symbol(b)]), ShowInt(y), last);
    SymbolToken(',', " " + last);
    SqueezeOne("", Token(Fsep, ","), " " + last, "," + (" " + last));
    assert "" + ("," + (" " + last)) == ", " + last;
    SqueezeInt(x, ", " + last);
    SymbolToken(Symbol(a), ShowInt(x) + (", " + last));
    SqueezeOne(" ", Token(Addr, [Symbol(a)]), ShowInt(x) + (", " + last), [Symbol(a)] + (ShowInt(x) + (", " + last)));
  }

  lemma NothingToSqueeze()
    ensures Squeeze("") == Some("") && !IsDigit(Head(""))
  {
  }

  /** Pass 1 recognises a line of the listing and squeezes its operands. */
  lemma LineIsStatement(cs: nat, i: Instruction)
    requires Normalised(cs, i)
    ensures Statement(LineText(cs, i)) == Some((OpIndex(OpName(i.op)), ShortText(cs, i)))
  {
    hide GetToken, Squeeze, ShowInt, Symbol, Signed, OpName, ModName, OpIndex, Upper, Run;
    OpNameIndex(i.op);
    var y := [Symbol(i.bMode)] + ShowInt(Signed(i.b, cs));
    var operands := " " + ([Symbol(i.aMode)] + (ShowInt(Signed(i.a, cs)) + (", " + y)));
    WordToken(OpName(i.op), "." + (ModName(i.modifier) + operands));
    RunTakes("." + ModName(i.modifier), operands);
    assert "." + ModName(i.modifier) + operands == "." + (ModName(i.modifier) + operands);
    SqueezeOperands(i.aMode, Signed(i.a, cs), i.bMode, Signed(i.b, cs));
    var z := Squeeze(operands).value;
    assert OpName(i.op) + ("." + ModName(i.modifier)) + " " + z
        == OpName(i.op) + ("." + (ModName(i.modifier) + (" " + z)));
  }

  lemma StartIsStatement(start: nat)
    ensures Statement(StartText(start)) == Some((ORGOP, StartText(start)))
  {
    StartNameIndex();
    NothingToSqueeze();
    hide GetToken, Squeeze, ShowNat, OpIndex, Upper, Run;
    var digits := ShowNat(start);
    assert StartText(start) == "ORG" + (" " + digits);
    WordToken("ORG", " " + digits);
    RunTakes("", " " + digits);
    assert "" + (" " + digits) == " " + digits;
    NumberToken(digits, "");
    assert digits + "" == digits;
    SqueezeOne(" ", Token(Numb, digits), "", digits);
    assert "ORG" + "" + " " + (digits + "") == StartText(start);
  }

  // ---- pass 2 on a line ----

  /** A number as pass 2 collects it. */
  function NumText(n: int): string {
    ShowInt(n) + " "
  }

  /** What pass 2 finds on a line of the listing. */
  function LineParts(cs: nat, i: Instruction): Parts
    requires Normalised(cs, i)
  {
    Parts(OpIndex(OpName(i.op)), Some(Position(MODNAME, ModName(i.modifier))), i.aMode, NumText(Signed(i.a, cs)),
          i.bMode, NumText(Signed(i.b, cs)), true, AtExpr)
  }

  lemma StepOpcode(u: string, tok: Token, t: string, p: Parts)
    requires GetToken(u) == (tok, t) && tok.kind.Char? && OpIndex(Upper(tok.text)) < EQUOP
    ensures var op := OpIndex(Upper(tok.text));
            Scan(u, AtOp, p) == Scan(t, if op < OPNUM then AtModAddrExp else AtExpr,
                p.(last := AtOp, filled := false, opcode := op))
  {
    hide GetToken, OpIndex, Upper;
  }

  lemma StepDot(u: string, tok: Token, t: string, p: Parts)
    requires GetToken(u) == (tok, t) && tok.kind.Modf?
    ensures Scan(u, AtModAddrExp, p) == Scan(t, AtModf, p.(last := AtModAddrExp, filled := false))
  {
    hide GetToken;
  }

  lemma StepModifier(u: string, tok: Token, t: string, p: Parts)
    requires GetToken(u) == (tok, t) && tok.kind.Char? && Position(MODNAME, Upper(tok.text)) < 7
    ensures Scan(u, AtModf, p) == Scan(t, AtAddrExpA,
              p.(last := AtModf, filled := false, modifier := Some(Position(MODNAME, Upper(tok.text)))))
  {
    hide GetToken, Upper;
    var m := Position(MODNAME, Upper(tok.text));
    hide Position;
  }

  lemma OpcodeScans(op: Opcode, t: string, p: Parts)
    requires !IsWord(Head(t))
    ensures Scan(OpName(op) + t, AtOp, p) == Scan(t, AtModAddrExp,
              p.(last := AtOp, filled := false, opcode := OpIndex(OpName(op))))
  {
    hide GetToken, OpName, OpIndex, Upper, Scan;
    OpNameIndex(op);
    WordToken(OpName(op), t);
    StepOpcode(OpName(op) + t, Token(Char, OpName(op)), t, p);
  }

  lemma ScanModifierName(m: Modifier, t: string, p: Parts)
    requires !IsWord(Head(t))
    ensures Scan("." + (ModName(m) + t), AtModAddrExp, p)
            == Scan(t, AtAddrExpA, p.(last := AtModf, filled := false, modifier := Some(Position(MODNAME, ModName(m)))))
  {
    hide GetToken, ModName, Position, Upper, Scan;
    ModNameIndex(m);
    WordToken(ModName(m), t);
    SymbolToken('.', ModName(m) + t);
    var q := p.(last := AtModAddrExp, filled := false);
    StepDot("." + (ModName(m) + t), Token(Modf, "."), ModName(m) + t, p);
    StepModifier(ModName(m) + t, Token(Char, ModName(m)), t, q);
  }

  lemma ScanMode(pad: string, m: Mode, t: string, at: Where, p: Parts)
    requires AllSpace(pad) && (at.AtAddrExpA? || at.AtAddrExpB?)
    ensures Scan(pad + ([Symbol(m)] + t), at, p)
            == Scan(t, if at.AtAddrExpB? then AtExpr else AtExpFs,
                    if at.AtAddrExpB? then p.(last := at, filled := false, bMode := m)
                        else p.(last := at, filled := false, aMode := m))
  {
    TokenSkips(pad, [Symbol(m)] + t);
    SymbolToken(Symbol(m), t);
    hide GetToken, Symbol, ModeOf;
  }

  /** A number is collected into the field of the state. */
  lemma ScanNumber(n: int, t: string, at: Where, p: Parts)
    requires (at.AtExpFs? || at.AtExpr?) && !IsDigit(Head(t)) && |ShowInt(n)| <= 100
    requires if at.AtExpr? then p.bExpr == "" else p.aExpr == ""
    ensures Scan(ShowInt(n) + t, at, p)
            == Scan(t, at, if at.AtExpr? then p.(last := at, filled := true, bExpr := NumText(n))
                else p.(last := at, filled := true, aExpr := NumText(n)))
  {
    hide Scan, GetToken, ShowNat;
    var digits := ShowNat(if n < 0 then -n else n);
    if n < 0 {
      SymbolToken('-', digits + t);
      assert "-" + (digits + t) == ShowInt(n) + t;
      ScanPiece("-" + (digits + t), at, p, Token(Expr, "-"), digits + t, "-");
      var q := if at.AtExpr? then p.(last := at, filled := true, bExpr := "-")
          else p.(last := at, filled := true, aExpr := "-");
      assert "" + "-" == "-";
      NumberToken(digits, t);
      ScanPiece(digits + t, at, q, Token(Numb, digits), t, digits + " ");
      assert "-" + (digits + " ") == NumText(n);
    } else {
      NumberToken(digits, t);
      ScanPiece(digits + t, at, p, Token(Numb, digits), t, digits + " ");
      assert "" + (digits + " ") == NumText(n);
    }
  }

  lemma ScanPiece(u: string, at: Where, p: Parts, tok: Token, t: string, piece: string)
    requires (at.AtExpFs? || at.AtExpr?) && GetToken(u) == (tok, t) && (tok.kind.Expr? || tok.kind.Numb?)
    requires piece == if tok.kind.Numb? then tok.text + " " else tok.text
    requires |piece| + |if at.AtExpr? then p.bExpr else p.aExpr| < MAXALLCHAR
    ensures Scan(u, at, p)
            == Scan(t, at, if at.AtExpr? then p.(last := at, filled := true, bExpr := p.bExpr + piece)
                           else p.(last := at, filled := true, aExpr := p.aExpr + piece))
  {
    hide GetToken;
  }

  lemma ScanComma(t: string, p: Parts)
    ensures Scan("," + t, AtExpFs, p) == Scan(t, AtAddrExpB, p.(last := AtExpFs))
  {
    SymbolToken(',', t);
    hide GetToken;
  }

  lemma ScanEnds(p: Parts)
    ensures Scan("", AtExpr, p) == Some(p.(last := AtExpr))
  {
  }

  /** Pass 2 finds the instruction's own parts on its squeezed line. */
  lemma LineScans(cs: nat, i: Instruction, p: Parts)
    requires Normalised(cs, i) && cs <= 65535 && Blank(p)
    ensures Scan(ShortText(cs, i), AtOp, p) == Some(LineParts(cs, i))
  {
    hide Scan, GetToken, Symbol, ModName, OpName, Signed, ShowInt, OpIndex, Position;
    var x, y := Signed(i.a, cs), Signed(i.b, cs);
    SignedIsShort(cs, i.a);
    SignedIsShort(cs, i.b);
    var last := [Symbol(i.bMode)] + ShowInt(y);
    var middle := [Symbol(i.aMode)] + (ShowInt(x) + ("," + last));
    var q := p.(opcode := OpIndex(OpName(i.op)), filled := false, last := AtOp);
    OpcodeScans(i.op, "." + (ModName(i.modifier) + (" " + middle)), p);
    ScanModifierName(i.modifier, " " + middle, q);
    q := q.(modifier := Some(Position(MODNAME, ModName(i.modifier))), last := AtModf);
    ScanMode(" ", i.aMode, ShowInt(x) + ("," + last), AtAddrExpA, q);
    q := q.(aMode := i.aMode, last := AtAddrExpA);
    ScanNumber(x, "," + last, AtExpFs, q);
    q := q.(aExpr := NumText(x), filled := true, last := AtExpFs);
    ScanComma(last, q);
    assert "" + last == last;
    ScanMode("", i.bMode, ShowInt(y), AtAddrExpB, q);
    q := q.(bMode := i.bMode, filled := false, last := AtAddrExpB);
    assert ShowInt(y) + "" == ShowInt(y);
    ScanNumber(y, "", AtExpr, q);
    q := q.(bExpr := NumText(y), filled := true, last := AtExpr);
    ScanEnds(q);
  }

  lemma SignedIsShort(cs: nat, v: nat)
    requires v < cs <= 65535
    ensures |ShowInt(Signed(v, cs))| <= 6 && -65535 <= Signed(v, cs) <= 65535
  {
    var n := Signed(v, cs);
    ShowNatIsShort(if n < 0 then -n else n, 5);
  }

  lemma StartScans(start: nat, p: Parts)
    requires start < 65535 && Blank(p)
    ensures Scan(StartText(start), AtOp, p)
            == Some(p.(opcode := ORGOP, bExpr := NumText(start), filled := true, last := AtExpr))
  {
    hide GetToken, OpIndex, Upper, Scan, ShowNat;
    StartNameIndex();
    ShowNatIsShort(start, 5);
    var digits := ShowNat(start);
    assert StartText(start) == "ORG" + (" " + digits);
    WordToken("ORG", " " + digits);
    TokenSkips(" ", digits);
    NumberToken(digits, "");
    assert digits + "" == digits;
    StepOpcode(StartText(start), Token(Char, "ORG"), " " + digits, p);
    var q := p.(last := AtOp, filled := false, opcode := ORGOP);
    ScanPiece(" " + digits, AtExpr, q, Token(Numb, digits), "", digits + " ");
    assert "" + (digits + " ") == NumText(start);
    ScanEnds(q.(last := AtExpr, filled := true, bExpr := NumText(start)));
  }

  // ---- the numbers evaluate to themselves ----

  /** A collected number evaluates to itself, touching nothing. */
  lemma NumberEvaluates(n: int, regs: seq<int>, save: nat)
    requires -0x1_0000_0000 < n < 0x1_0000_0000 && St(regs, save, Fine).Valid()
    ensures EvalExpr(NumText(n), regs, save) == (Fine, n, St(regs, save, Fine))
  {
    hide EvalExpr, ShowNat;
    var m := if n < 0 then -n else n;
    var lit := E.Lit("", ShowNat(m));
    NumberIsTree(m);
    if n < 0 {
      E.EvaluatesTree(E.Neg("", lit), " ", regs, save);
    } else {
      E.EvaluatesTree(lit, " ", regs, save);
    }
  }

  /** A number as a tree, and its negation. */
  lemma NumberIsTree(m: nat)
    requires m < 0x1_0000_0000
    ensures var lit := E.Lit("", ShowNat(m));
            && E.Proper(lit) && E.Spelled(lit) == ShowNat(m) && E.Value(lit) == m
            && E.Proper(E.Neg("", lit)) && E.Spelled(E.Neg("", lit)) == "-" + ShowNat(m)
            && E.Value(E.Neg("", lit)) == -(m as int)
  {
    hide ShowNat;
    DecimalShows(m);
    assert "" + ShowNat(m) == ShowNat(m);
    assert "" + "-" + ShowNat(m) == "-" + ShowNat(m);
  }

  /** A number shown signed is the field again, around the core. */
  lemma SignedWraps(cs: nat, v: nat)
    requires v < cs
    ensures Signed(v, cs) % cs == v
  {
    if v > cs / 2 {
      Bits.ModUnique(v - cs, cs, -1, v);
    }
  }

  /** The listing of an imp. */
  lemma ImpIsListed(cs: nat)
    requires cs >= 3
    ensures var imp := Warrior([Instruction(Mov, MI, Direct, 0, Direct, 1)], 0, None);
            NormalisedWarrior(cs, imp) && Lines(cs, imp) == ["ORG 0", "MOV.I $0, $1"]
  {
    var i := Instruction(Mov, MI, Direct, 0, Direct, 1);
    assert ShowNat(0) == "0" && ShowNat(1) == "1";
    assert LineText(cs, i) == "MOV.I $0, $1";
    assert StartText(0) == "ORG 0";
  }
}
