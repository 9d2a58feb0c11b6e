/** What pass 2 makes of the lines pass 1 wrote, as functions of the symbols and
    the lines (src/asm.rs:1664-1823): the parts of a line into an instruction, or
    into the start or the PIN. Nothing where the source reports an error. */
module Encodings {
  import opened Redcode
  import opened Text
  import opened Evaluator
  import opened AsmText
  import opened Symbols

  /** The parts before a line is read. */
  const UNREAD := Parts(0, None, Direct, "", Direct, "", false, AtOp)

  /** What a line before leaves of opcode and state does not matter. */
  lemma {:induction false} BlankIsUnread(s: Scope, fuel: nat, t: string, p: Parts)
    requires s.Valid() && Blank(p)
    ensures ScanOn(s, fuel, t, AtOp, p) == ScanOn(s, fuel, t, AtOp, UNREAD)
  {
    hide GetToken, OpIndex;
  }

  /** The line has an operand where it needs one, and two where the opcode does. */
  predicate Fillable(p: Parts) {
    p.opcode < OPNUM ==> p.filled && (p.bExpr != "" || p.opcode in {11, 12, 13, 16})
  }

  /** A single operand of DAT is its second, that of SPL, JMP and NOP its first. */
  function Filled(p: Parts): Parts {
    if p.opcode >= OPNUM || p.bExpr != "" then p
    else if p.opcode == 12 then p.(bMode := p.aMode, bExpr := p.aExpr, aMode := Immediate, aExpr := "0")
    else p.(bMode := Direct, bExpr := "0")
  }

  /** An expression that is not there is zero. */
  function Zeroed(p: Parts): Parts {
    p.(aExpr := if p.aExpr == "" then "0" else p.aExpr, bExpr := if p.bExpr == "" then "0" else p.bExpr)
  }

  /** How far pass 2 is: the number of the next instruction, the registers of
      expressions, the start and the PIN. */
  datatype Coding = Coding(line: nat, regs: seq<int>, save: nat, offset: int, pin: Option<int>)
  {
    predicate Valid() {
      St(regs, save, Fine).Valid()
    }
  }

  /** The expression has a value. */
  predicate Evaluates(status: Status) {
    status.Fine? || status.Overflow?
  }

  /** ORG and PIN take their number; END does when no start is known yet. */
  function PseudoCoded(cs: nat, p: Parts, c: Coding): (r: Option<Coding>)
    requires cs >= 1 && c.Valid()
    ensures r.Some? ==> r.value.Valid() && r.value.line == c.line
  {
    var e := EvalExpr(p.bExpr, c.regs, c.save);
    var d := c.(regs := e.2.regs, save := e.2.save);
    if !Evaluates(e.0) then None
    else if p.opcode == ORGOP then Some(d.(offset := e.1 % cs))
    else if p.opcode == PINOP then Some(d.(pin := Some(e.1)))
    else if e.1 != 0 && c.offset == 0 then Some(d.(offset := e.1 % cs))
    else Some(d)
  }

  /** An instruction: the modifier its own or the opcode's default, both fields
      evaluated in order and taken around the core. */
  function FieldsCoded(cs: nat, p: Parts, c: Coding): (r: Option<(Instruction, Coding)>)
    requires cs >= 1 && c.Valid() && p.opcode < OPNUM
    ensures r.Some? ==> Normalised(cs, r.value.0) && r.value.1.Valid()
  {
    var a := EvalExpr(p.aExpr, c.regs, c.save);
    var b := EvalExpr(p.bExpr, a.2.regs, a.2.save);
    if !Evaluates(a.0) || !Evaluates(b.0) || (p.modifier.Some? && p.modifier.value >= 7) then None
    else
      var op := OpcodeOf(p.opcode);
      var m := if p.modifier.Some? then ModifierOf(p.modifier.value) else DefaultModifier(op, p.aMode, p.bMode);
      Some((Instruction(op, m, p.aMode, a.1 % cs, p.bMode, b.1 % cs),
            c.(line := c.line + 1, regs := b.2.regs, save := b.2.save)))
  }

  /** A line's parts, completed. */
  function PartsOf(s: Scope, fuel: nat, text: string): Option<Parts>
    requires s.Valid()
  {
    var z := ScanOn(s, fuel, text, AtOp, UNREAD);
    if z.None? || !Fillable(z.value) then None else Some(Zeroed(Filled(z.value)))
  }

  /** A line: an instruction, or one that only sets the start or the PIN. */
  function LineCoded(cs: nat, s: Scope, fuel: nat, text: string, c: Coding): (r: Option<(Option<Instruction>, Coding)>)
    requires cs >= 1 && s.Valid() && c.Valid()
    ensures r.Some? ==> r.value.1.Valid() && (r.value.0.Some? ==> Normalised(cs, r.value.0.value))
    ensures r.Some? ==> r.value.1.line == c.line + if r.value.0.Some? then 1 else 0
  {
    var z := PartsOf(s.(line := c.line), fuel, text);
    if z.None? || z.value.opcode >= EQUOP then None
    else if z.value.opcode >= OPNUM then
      var q := PseudoCoded(cs, z.value, c);
      if q.None? then None else Some((None, q.value))
    else
      var q := FieldsCoded(cs, z.value, c);
      if q.None? then None else Some((Some(q.value.0), q.value.1))
  }

  /** The modifier an instruction has when none is written, modifier by modifier:
      which opcodes it is for, and which operands are immediate. */
  predicate Standard(i: Instruction) {
    var moves, sums := i.op in {Mov, Cmp, Seq, Sne}, i.op in {Add, Sub, Mul, Div, Mod};
    var one, jumps := i.op in {Slt, Ldp, Stp}, i.op in {Jmp, Jmz, Jmn, Djn, Spl};
    && (i.modifier == MAB <==> (moves || sums || one) && i.aMode == Immediate)
    && (i.modifier == MB <==> jumps || ((moves || sums) && i.aMode != Immediate && i.bMode == Immediate)
                              || (one && i.aMode != Immediate))
    && (i.modifier == MI <==> moves && i.aMode != Immediate && i.bMode != Immediate)
    && (i.modifier == MF <==> i.op in {Dat, Nop} || (sums && i.aMode != Immediate && i.bMode != Immediate))
  }

  lemma DefaultIsStandard(i: Instruction)
    ensures i.modifier == DefaultModifier(i.op, i.aMode, i.bMode) ==> Standard(i)
  {
  }

  /** Every line that is an instruction: opcode and modes as its parts have them,
      the modifier the one written or the standard one, and both fields the
      remainders of the values of its expressions, the first evaluated first. */
  lemma LineReads(cs: nat, s: Scope, fuel: nat, text: string, c: Coding)
    requires cs >= 1 && s.Valid() && c.Valid()
    requires var q := LineCoded(cs, s, fuel, text, c); q.Some? && q.value.0.Some?
    ensures PartsOf(s.(line := c.line), fuel, text).Some?
    ensures var z, q := PartsOf(s.(line := c.line), fuel, text).value, LineCoded(cs, s, fuel, text, c).value;
            var i, d := q.0.value, q.1;
            var a := EvalExpr(z.aExpr, c.regs, c.save);
            var b := EvalExpr(z.bExpr, a.2.regs, a.2.save);
            && z.opcode < OPNUM && i.op == OpcodeOf(z.opcode) && i.aMode == z.aMode && i.bMode == z.bMode
            && i.a == a.1 % cs && i.b == b.1 % cs && a.0 in {Fine, Overflow} && b.0 in {Fine, Overflow}
            && (z.modifier.None? ==> Standard(i))
            && (z.modifier.Some? ==> z.modifier.value < 7 && i.modifier == ModifierOf(z.modifier.value))
            && d == Coding(c.line + 1, b.2.regs, b.2.save, c.offset, c.pin)
  {
    hide ScanOn, EvalExpr, PartsOf, DefaultModifier, PseudoCoded, Standard, OpcodeOf, ModifierOf;
    DefaultIsStandard(LineCoded(cs, s, fuel, text, c).value.0.value);
  }

  /** Every line that is none: ORG sets the start, PIN the PIN, END the start if
      there is none yet; the value of its expression is all it takes. */
  lemma PseudoReads(cs: nat, s: Scope, fuel: nat, text: string, c: Coding)
    requires cs >= 1 && s.Valid() && c.Valid()
    requires var q := LineCoded(cs, s, fuel, text, c); q.Some? && q.value.0.None?
    ensures PartsOf(s.(line := c.line), fuel, text).Some?
    ensures var z, d := PartsOf(s.(line := c.line), fuel, text).value, LineCoded(cs, s, fuel, text, c).value.1;
            var e := EvalExpr(z.bExpr, c.regs, c.save);
            && OPNUM <= z.opcode < EQUOP && e.0 in {Fine, Overflow} && d.regs == e.2.regs && d.line == c.line
            && (OPNAME[z.opcode] == "ORG" ==> d.offset == e.1 % cs && d.pin == c.pin)
            && (OPNAME[z.opcode] == "PIN" ==> d.offset == c.offset && d.pin == Some(e.1))
            && (OPNAME[z.opcode] == "END" ==>
                  d.offset == (if c.offset == 0 && e.1 != 0 then e.1 % cs else c.offset) && d.pin == c.pin)
            && OPNAME[z.opcode] in {"ORG", "PIN", "END"}
  {
    hide ScanOn, EvalExpr, PartsOf, FieldsCoded;
    PseudoNames();
  }

  lemma PseudoNames()
    ensures OPNAME[ORGOP] == "ORG" && OPNAME[ENDOP] == "END" && OPNAME[PINOP] == "PIN"
    ensures "ORG" != "END" && "ORG" != "PIN" && "END" != "PIN"
  {
    assert "ORG"[0] == 'O' && "END"[0] == 'E' && "PIN"[0] == 'P';
  }

  /** The first `k` lines. */
  function LinesCoded(cs: nat, s: Scope, fuel: nat, lines: seq<Line>, k: nat,
                      c: Coding): (r: Option<(seq<Instruction>, Coding)>)
    requires cs >= 1 && s.Valid() && c.Valid() && k <= |lines|
    ensures r.Some? ==>
              && r.value.1.Valid() && NormalisedCode(cs, r.value.0)
              && r.value.1.line == c.line + |r.value.0|
    decreases k
  {
    if k == 0 then Some(([], c))
    else
      var before := LinesCoded(cs, s, fuel, lines, k - 1, c);
      if before.None? then None
      else
        var q := LineCoded(cs, s, fuel, lines[k - 1].text, before.value.1);
        if q.None? then None
        else Some((before.value.0 + (if q.value.0.Some? then [q.value.0.value] else []), q.value.1))
  }

  /** The scope's own number does not matter. */
  lemma {:induction false} NumberAside(cs: nat, s: Scope, n: nat, fuel: nat, text: string, c: Coding)
    requires cs >= 1 && s.Valid() && c.Valid()
    ensures LineCoded(cs, s.(line := n), fuel, text, c) == LineCoded(cs, s, fuel, text, c)
  {
    hide ScanOn, PartsOf, PseudoCoded, FieldsCoded;
  }

  lemma {:induction false} NothingIsCoded(cs: nat, s: Scope, fuel: nat, lines: seq<Line>, c: Coding)
    requires s.Valid() && cs >= 1 && c.Valid()
    ensures LinesCoded(cs, s, fuel, lines, 0, c) == Some(([], c))
  {
  }

  /** An expression of a line has no value. */
  predicate Unvalued(p: Parts, c: Coding)
    requires c.Valid()
  {
    if p.opcode >= OPNUM then !Evaluates(EvalExpr(p.bExpr, c.regs, c.save).0)
    else
      var a := EvalExpr(p.aExpr, c.regs, c.save);
      && (p.modifier.Some? ==> p.modifier.value < 7)
      && (!Evaluates(a.0) || !Evaluates(EvalExpr(p.bExpr, a.2.regs, a.2.save).0))
  }

  /** A line whose parts are found comes to nothing. */
  predicate Fruitless(s: Scope, fuel: nat, text: string, c: Coding)
    requires s.Valid() && c.Valid()
  {
    var z := PartsOf(s.(line := c.line), fuel, text);
    z.Some? && z.value.opcode < EQUOP && Unvalued(z.value, c)
  }

  lemma FruitlessAnyway(s: Scope, n: nat, fuel: nat, text: string, c: Coding)
    requires s.Valid() && c.Valid()
    ensures Fruitless(s.(line := n), fuel, text, c) == Fruitless(s, fuel, text, c)
  {
    hide PartsOf, Unvalued;
  }

  /** Line `k` does, and the lines before it do not. */
  predicate FruitlessAt(cs: nat, s: Scope, fuel: nat, lines: seq<Line>, k: nat, c: Coding)
    requires cs >= 1 && s.Valid() && c.Valid() && k < |lines|
  {
    var before := LinesCoded(cs, s, fuel, lines, k, c);
    before.Some? && Fruitless(s, fuel, lines[k].text, before.value.1)
  }

  /** Some line does. */
  predicate LeadsNowhere(cs: nat, s: Scope, fuel: nat, lines: seq<Line>, c: Coding)
    requires cs >= 1 && s.Valid() && c.Valid()
  {
    exists k :: 0 <= k < |lines| && FruitlessAt(cs, s, fuel, lines, k, c)
  }

  /** A line on. */
  lemma {:induction false} CodedNext(cs: nat, s: Scope, fuel: nat, lines: seq<Line>, k: nat, c: Coding)
    requires cs >= 1 && s.Valid() && c.Valid() && k < |lines|
    ensures var before := LinesCoded(cs, s, fuel, lines, k, c);
            LinesCoded(cs, s, fuel, lines, k + 1, c)
            == if before.None? then None
               else
                 var q := LineCoded(cs, s, fuel, lines[k].text, before.value.1);
                 if q.None? then None
                 else Some((before.value.0 + (if q.value.0.Some? then [q.value.0.value] else []), q.value.1))
  {
    hide LineCoded;
  }

  lemma {:induction false} CodedBefore(cs: nat, s: Scope, fuel: nat, lines: seq<Line>, j: nat, k: nat, c: Coding)
    requires cs >= 1 && s.Valid() && c.Valid() && j <= k <= |lines|
    requires LinesCoded(cs, s, fuel, lines, k, c).Some?
    ensures LinesCoded(cs, s, fuel, lines, j, c).Some?
    decreases k
  {
    hide LineCoded;
    if j < k {
      CodedBefore(cs, s, fuel, lines, j, k - 1, c);
    }
  }

  /** So there is nothing all lines come to. */
  lemma NothingComes(cs: nat, s: Scope, fuel: nat, lines: seq<Line>, k: nat, c: Coding)
    requires cs >= 1 && s.Valid() && c.Valid() && k < |lines| && FruitlessAt(cs, s, fuel, lines, k, c)
    ensures LinesCoded(cs, s, fuel, lines, |lines|, c).None?
  {
    hide LineCoded, LinesCoded, Fruitless;
    if LinesCoded(cs, s, fuel, lines, |lines|, c).Some? {
      CodedBefore(cs, s, fuel, lines, k + 1, |lines|, c);
      CodedNext(cs, s, fuel, lines, k, c);
      FruitlessIsNone(cs, s, fuel, lines[k].text, LinesCoded(cs, s, fuel, lines, k, c).value.1);
    }
  }

  /** How far assembling goes: to the end, or to a line that comes to nothing. */
  lemma LastCoded(cs: nat, s: Scope, fuel: nat, lines: seq<Line>, c: Coding) returns (end: nat)
    requires cs >= 1 && s.Valid() && c.Valid()
    ensures end <= |lines| && (LinesCoded(cs, s, fuel, lines, |lines|, c).Some? ==> end == |lines|)
    ensures LeadsNowhere(cs, s, fuel, lines, c) <==> end < |lines|
    ensures end < |lines| ==>
              && LinesCoded(cs, s, fuel, lines, end, c).Some?
              && Fruitless(s, fuel, lines[end].text, LinesCoded(cs, s, fuel, lines, end, c).value.1)
  {
    hide LineCoded, LinesCoded, Fruitless;
    end := |lines|;
    if LeadsNowhere(cs, s, fuel, lines, c) {
      end :| end < |lines| && FruitlessAt(cs, s, fuel, lines, end, c);
      NothingComes(cs, s, fuel, lines, end, c);
    }
  }

  lemma FruitlessIsNone(cs: nat, s: Scope, fuel: nat, text: string, c: Coding)
    requires cs >= 1 && s.Valid() && c.Valid() && Fruitless(s, fuel, text, c)
    ensures LineCoded(cs, s, fuel, text, c).None?
  {
    hide PartsOf, EvalExpr, DefaultModifier, OpcodeOf, ModifierOf;
  }

  /** The next line is assembled behind those before it. */
  lemma {:induction false} CodedOn(cs: nat, s: Scope, fuel: nat, lines: seq<Line>, k: nat, n: nat, c: Coding)
    requires cs >= 1 && s.Valid() && c.Valid() && k < n <= |lines| && LinesCoded(cs, s, fuel, lines, n, c).Some?
    ensures LinesCoded(cs, s, fuel, lines, k, c).Some?
    ensures var (code, now) := LinesCoded(cs, s, fuel, lines, k, c).value;
            var q := LineCoded(cs, s.(line := now.line), fuel, lines[k].text, now);
            && q.Some?
            && LinesCoded(cs, s, fuel, lines, k + 1, c)
               == Some((if q.value.0.Some? then code + [q.value.0.value] else code, q.value.1))
  {
    hide LineCoded, LinesCoded;
    CodedBefore(cs, s, fuel, lines, k + 1, n, c);
    CodedBefore(cs, s, fuel, lines, k, n, c);
    CodedNext(cs, s, fuel, lines, k, c);
    var (code, now) := LinesCoded(cs, s, fuel, lines, k, c).value;
    NumberAside(cs, s, now.line, fuel, lines[k].text, now);
    assert code + [] == code;
  }
}
