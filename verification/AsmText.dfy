/** What the assembler's two passes do to a line without symbols
    (src/asm.rs:631-750, 1344-1497, 1589-1662): pass 1 copies an instruction,
    squeezing the white space out of its operands, and pass 2 collects its
    parts. */
module AsmText {
  import opened Redcode
  import opened Text

  const MAXALLCHAR: nat := 256
  const OPNUM: nat := 19
  const ORGOP: nat := 19
  const ENDOP: nat := 20
  const PINOP: nat := 21
  const EQUOP: nat := 22

  const OPNAME: seq<string> := [
    "MOV", "ADD", "SUB", "MUL", "DIV", "MOD", "JMZ", "JMN", "DJN", "CMP", "SLT", "SPL", "DAT",
    "JMP", "SEQ", "SNE", "NOP", "LDP", "STP", "ORG", "END", "PIN"]

  const MODNAME: seq<string> := ["A", "B", "AB", "BA", "F", "X", "I"]

  function Position(names: seq<string>, s: string): (r: nat)
    ensures r <= |names| && (r < |names| ==> names[r] == s)
  {
    if names == [] then 0 else if names[0] == s then 0 else 1 + Position(names[1..], s)
  }

  function OpIndex(up: string): (r: nat)
    ensures r <= EQUOP && (r < EQUOP ==> OPNAME[r] == up)
  {
    Position(OPNAME, up)
  }

  function OpcodeOf(i: nat): Opcode
    requires i < OPNUM
  {
    [Mov, Add, Sub, Mul, Div, Mod, Jmz, Jmn, Djn, Cmp, Slt, Spl, Dat, Jmp, Seq, Sne, Nop, Ldp, Stp][i]
  }

  function ModifierOf(i: nat): Modifier
    requires i < 7
  {
    [MA, MB, MAB, MBA, MF, MX, MI][i]
  }

  /** The word of every opcode, as a reader of the source knows it. */
  lemma OpcodesRead(up: string)
    requires OpIndex(up) < OPNUM
    ensures match OpcodeOf(OpIndex(up))
            case Dat => up == "DAT" case Mov => up == "MOV" case Add => up == "ADD" case Sub => up == "SUB"
            case Mul => up == "MUL" case Div => up == "DIV" case Mod => up == "MOD" case Jmp => up == "JMP"
            case Jmz => up == "JMZ" case Jmn => up == "JMN" case Djn => up == "DJN" case Spl => up == "SPL"
            case Slt => up == "SLT" case Cmp => up == "CMP" case Seq => up == "SEQ" case Sne => up == "SNE"
            case Nop => up == "NOP" case Ldp => up == "LDP" case Stp => up == "STP"
  {
    hide OpIndex;
    OpcodeAt(OpIndex(up));
  }

  lemma OpcodeAt(k: nat)
    requires k < OPNUM
    ensures var up := OPNAME[k];
            match OpcodeOf(k)
            case Dat => up == "DAT" case Mov => up == "MOV" case Add => up == "ADD" case Sub => up == "SUB"
            case Mul => up == "MUL" case Div => up == "DIV" case Mod => up == "MOD" case Jmp => up == "JMP"
            case Jmz => up == "JMZ" case Jmn => up == "JMN" case Djn => up == "DJN" case Spl => up == "SPL"
            case Slt => up == "SLT" case Cmp => up == "CMP" case Seq => up == "SEQ" case Sne => up == "SNE"
            case Nop => up == "NOP" case Ldp => up == "LDP" case Stp => up == "STP"
  {
  }

  lemma ModifiersRead(up: string)
    requires Position(MODNAME, up) < 7
    ensures match ModifierOf(Position(MODNAME, up))
            case MA => up == "A" case MB => up == "B" case MAB => up == "AB" case MBA => up == "BA"
            case MF => up == "F" case MX => up == "X" case MI => up == "I"
  {
    hide Position;
  }

  /** A character that is no mode counts as direct. */
  function ModeOf(c: char): Mode {
    if c == '#' then Immediate
    else if c == '*' then AIndirect
    else if c == '@' then BIndirect
    else if c == '{' then APredec
    else if c == '<' then BPredec
    else if c == '}' then APostinc
    else if c == '>' then BPostinc
    else Direct
  }

  lemma ModesRead(c: char)
    ensures var m := ModeOf(c);
            && (c == '#' <==> m == Immediate) && (c == '*' <==> m == AIndirect) && (c == '@' <==> m == BIndirect)
            && (c == '{' <==> m == APredec) && (c == '<' <==> m == BPredec)
            && (c == '}' <==> m == APostinc) && (c == '>' <==> m == BPostinc)
  {
  }

  /** `dest` with `s` appended, unless the line buffer is full. */
  function Concat(dest: string, s: string): Option<string> {
    if |dest| + |s| < MAXALLCHAR then Some(dest + s) else None
  }

  // ---- pass 1 on an instruction without symbols ----

  /** The tokens of a text one after another; none if a word or a comment is
      among them. */
  function Squeeze(t: string): Option<string>
    decreases |t|
  {
    var (tok, rest) := GetToken(t);
    if tok.kind.End? then Some("")
    else if tok.kind.Char? || tok.kind.Comm? then None
    else
      var z := Squeeze(rest);
      if z.None? then None else Some(tok.text + z.value)
  }

  /** The characters up to white space, and the rest. */
  function Run(t: string): (r: (string, string))
    ensures |r.1| <= |t| && |r.0| + |r.1| == |t|
  {
    if t == "" || IsSpace(t[0]) then ("", t)
    else
      var (x, y) := Run(t[1..]);
      ([t[0]] + x, y)
  }

  /** An instruction as pass 1 writes it: opcode number and text. */
  function Statement(t: string): Option<(nat, string)> {
    var (tok, rest) := GetToken(t);
    var op := OpIndex(Upper(tok.text));
    if !tok.kind.Char? || op == EQUOP then None
    else
      var (run, rest2) := Run(rest);
      var z := Squeeze(rest2);
      if z.None? then None
      else Some((op, Upper(tok.text) + run + (if IsSpace(Head(rest2)) then " " else "") + z.value))
  }

  // ---- pass 2 on a line without symbols ----

  datatype Where = AtOp | AtModAddrExp | AtModf | AtAddrExpA | AtExpFs | AtAddrExpB | AtExpr

  /** What the automaton fills in. */
  datatype Parts = Parts(opcode: nat, modifier: Option<nat>, aMode: Mode, aExpr: string, bMode: Mode, bExpr: string,
                         filled: bool, last: Where)

  /** The parts before a line is read, whatever its opcode and state. */
  predicate Blank(p: Parts) {
    p.modifier == None && p.aMode == Direct && p.aExpr == "" && p.bMode == Direct && p.bExpr == ""
  }

  /** A piece of the field expression the state collects. */
  function Collect(p: Parts, at: Where, s: string): Option<Parts>
    requires at.AtExpFs? || at.AtExpr?
  {
    var e := Concat(if at.AtExpr? then p.bExpr else p.aExpr, s);
    if e.None? then None
    else if at.AtExpr? then Some(p.(bExpr := e.value, filled := true))
    else Some(p.(aExpr := e.value, filled := true))
  }

  /** The parts after the automaton has run over `t` from state `at`; none if it
      reports an error or meets a word where only a symbol can stand. */
  function Scan(t: string, at: Where, parts: Parts): Option<Parts>
    decreases |t|, if at.AtModAddrExp? || at.AtAddrExpA? || at.AtAddrExpB? then 1 else 0
  {
    var p := parts.(last := at);
    var (tok, rest) := GetToken(t);
    if at.AtOp? then
      var op := OpIndex(Upper(tok.text));
      if !tok.kind.Char? || op == EQUOP then None
      else Scan(rest, if op < OPNUM then AtModAddrExp else AtExpr, p.(filled := false, opcode := op))
    else if at.AtModf? then
      if tok.kind.End? then Some(p.(filled := false))
      else if !tok.kind.Char? then None
      else
        var m := Position(MODNAME, Upper(tok.text));
        if m == 7 then None else Scan(rest, AtAddrExpA, p.(filled := false, modifier := Some(m)))
    else if at.AtExpFs? || at.AtExpr? then
      if tok.kind.Fsep? && at.AtExpFs? then Scan(rest, AtAddrExpB, p)
      else if tok.kind.End? then Some(p)
      else if tok.kind.Expr? || tok.kind.Numb? || (tok.kind.Addr? && tok.text[0] in "><*") then
        var piece := if tok.kind.Numb? then Concat(tok.text, " ") else Some(tok.text);
        var c := if piece.Some? then Collect(p, at, piece.value) else None;
        if c.None? then None else Scan(rest, at, c.value)
      else None
    else
      var q := p.(filled := false);
      var next := if at.AtAddrExpB? then AtExpr else AtExpFs;
      if tok.kind.Modf? && at.AtModAddrExp? then Scan(rest, AtModf, q)
      else if tok.kind.Addr? then
        Scan(rest, next, if at.AtAddrExpB? then q.(bMode := ModeOf(tok.text[0])) else q.(aMode := ModeOf(tok.text[0])))
      else if tok.kind.Numb? || tok.kind.Expr? then Scan(t, next, q)
      else if tok.kind.End? then Some(q)
      else None
  }
}
