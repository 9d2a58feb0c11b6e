/** The assembler as the source runs it (src/asm.rs:793-1860): pass 1 rewrites
    the text through mutually recursive methods, pass 2 runs the line automaton.
    That every method below ends, on every text, is proved with the recursion
    depth, the expansion allowance and the position in a list of lines. */
module Assembler {
  import Bits
  import opened Redcode
  import opened Configs
  import opened Text
  import opened Evaluator
  import opened EvaluatorEngine
  import opened AsmText
  import opened Symbols
  import opened Encodings
  import opened Listings

  const MAX_DEPTH: nat := 10_000
  const MAXINSTR: nat := 1000

  // States of a line in pass 1.
  const SERR: int := -1
  const SNIL: int := 0
  const SLBL: int := 1
  const SVAL: int := 2
  const SCOM: int := 3
  const SPSE: int := 4
  const SFOR: int := 5
  const SROF: int := 6

  datatype Problem =
    | LineTooLong | UnexpectedToken | MissingOperand | UnknownSymbol | NeedsTwoOperands | BadExpression
    | ExpectedOpcode | RecursiveEqu | EquWithoutName | TooManyInstructions | NotAllowedHere | NoInstructions
    | LabelTwice | ForWithoutRof | RofWithoutFor | TooManyLabels | AssertionFailed | MissingAssert | BadAssert
    | ProgramTooLong | NeedsForCounter | LabelsDropped | StartOutside | EndStartIgnored | DivisionByZero
    | ArithmeticOverflow | CurlineLabel | NestingTooDeep | TooMuchExpansion
  {
    predicate Warning() {
      EquWithoutName? || ForWithoutRof? || NoInstructions? || LabelsDropped? || ArithmeticOverflow?
      || MissingAssert? || StartOutside? || EndStartIgnored? || BadAssert? || LabelTwice?
    }
  }

  /** The part of the state that the recursion of pass 1 hangs on. */
  datatype Mem = Mem(
    lists: seq<seq<Line>>, refs: seq<Ref>, counters: seq<nat>, depth: nat, expanded: nat, halted: bool, vcont: bool,
    aline: Option<(nat, nat)>)

  /** The rest of it. */
  datatype Extra = Extra(
    symtbl: seq<string>, statefine: nat, line: nat, out: seq<Line>, diags: seq<(Problem, nat)>, errnum: nat,
    noassert: bool, regs: seq<int>, saveOper: nat, parts: Parts, lineErr: bool, offset: int, pin: Option<int>)

  predicate WellFormed(m: Mem) {
    && (forall k :: 0 <= k < |m.refs| && m.refs[k].kind.EquText? ==>
          m.refs[k].kind.list < |m.lists| && m.lists[m.refs[k].kind.list] != [])
    && (m.aline.Some? ==> m.aline.value.0 < |m.lists| && m.aline.value.1 < |m.lists[m.aline.value.0]|)
    && (forall k :: 0 <= k < |m.counters| ==> m.counters[k] < |m.refs|)
    && (m.halted ==> !m.vcont) && m.depth <= MAX_DEPTH && m.expanded <= MAX_EXPANSION + 1
    && (m.vcont ==> m.expanded <= MAX_EXPANSION)
  }

  /** What every step of pass 1 keeps: the depth is back, so are the FOR counters
      and every symbol as it was, flag included, new ones behind them; the
      current line is in its list, no earlier than it was; the expansion
      allowance never grows. */
  predicate Follows(s: Mem, t: Mem) {
    && t.depth == s.depth && t.counters == s.counters && t.expanded >= s.expanded && (t.vcont ==> s.vcont)
    && s.lists <= t.lists && s.refs <= t.refs
    && (if s.aline.None? then t.aline.None?
        else t.aline.Some? && t.aline.value.0 == s.aline.value.0 && t.aline.value.1 >= s.aline.value.1)
  }

  /** One more message. */
  function Reported(x: Extra, e: Problem, loc: nat): Extra {
    x.(lineErr := true, errnum := x.errnum + (if e.Warning() then 0 else 1), diags := x.diags + [(e, loc)])
  }

  /** A warning is no error. */
  lemma WarningCounts(x: Extra, e: Problem, loc: nat)
    requires e.Warning()
    ensures Reported(x, e, loc) == x.(lineErr := true, diags := x.diags + [(e, loc)])
  {
  }

  lemma FollowsOn(s: Mem, t: Mem, u: Mem)
    requires Follows(s, t) && Follows(t, u)
    ensures Follows(s, u)
  {
  }

  /** Whether there is a current line. */
  predicate OnLine(m: Mem) {
    m.aline.Some? && m.aline.value.0 < |m.lists| && m.aline.value.1 < |m.lists[m.aline.value.0]|
  }

  function LocOf(m: Mem): nat {
    if OnLine(m) then m.lists[m.aline.value.0][m.aline.value.1].loc else 0
  }

  class Asm {
    const cfg: Config
    var lists: seq<seq<Line>>
    var refs: seq<Ref>
    /** The live FOR counters, innermost last. */
    var counters: seq<nat>
    var symtbl: seq<string>
    var statefine: nat
    var depth: nat
    var expanded: nat
    var halted: bool
    var line: nat
    var vcont: bool
    var aline: Option<(nat, nat)>
    var out: seq<Line>
    var diags: seq<(Problem, nat)>
    var errnum: nat
    var noassert: bool
    var regs: seq<int>
    var saveOper: nat
    var parts: Parts
    var lineErr: bool
    var offset: int
    var pin: Option<int>

    constructor (cfg: Config)
      ensures this.cfg == cfg
      ensures Core() == Mem([[]], [], [], 0, 0, false, true, None)
      ensures Rest() == Extra([], 0, 0, [], [], 0, true, seq(26, _ => 0), 0,
                Parts(0, None, Direct, "", Direct, "", false, AtOp), false, 0, None)
    {
      this.cfg := cfg;
      lists, refs, counters, symtbl, statefine := [[]], [], [], [], 0;
      depth, expanded, halted, line, vcont, aline := 0, 0, false, 0, true, None;
      out, diags, errnum, noassert, regs, saveOper := [], [], 0, true, seq(26, _ => 0), 0;
      parts, lineErr, offset, pin := Parts(0, None, Direct, "", Direct, "", false, AtOp), false, 0, None;
    }

    ghost function Core(): Mem
      reads this`lists, this`refs, this`counters, this`depth, this`expanded, this`halted, this`vcont, this`aline
    {
      Mem(lists, refs, counters, depth, expanded, halted, vcont, aline)
    }

    ghost function Rest(): Extra
      reads this`symtbl, this`statefine, this`line, this`out, this`diags, this`errnum, this`noassert, this`regs,
          this`saveOper,
        this`parts, this`lineErr, this`offset, this`pin
    {
      Extra(symtbl, statefine, line, out, diags, errnum, noassert, regs, saveOper, parts, lineErr, offset, pin)
    }

    ghost predicate Registers()
      reads this`regs, this`saveOper
    {
      St(regs, saveOper, Fine).Valid()
    }

    ghost predicate Ready()
      reads this
    {
      WellFormed(Core()) && Registers()
    }

    /** What pass 1 goes by when it meets a name. */
    ghost function Names(): (s: Scope)
      requires Ready()
      reads this
      ensures s.Valid()
    {
      Scope(lists, refs, line)
    }

    /** How far pass 2 is. */
    ghost function Coded(): Coding
      reads this`line, this`regs, this`saveOper, this`offset, this`pin
    {
      Coding(line, regs, saveOper, offset, pin)
    }

    /** How far pass 1 is, the current line done. */
    ghost function Here(): (p: Progress)
      requires Ready() && aline.Some?
      reads this
      ensures p.Valid() && aline.value.0 < |lists|
    {
      ProgressOf(Core(), Rest())
    }

    /** Inside a text, no labels waiting. */
    ghost predicate Inside()
      reads this
    {
      symtbl == [] && vcont && aline.Some?
    }

    /** What rounds `n` to `limit` of the FOR with counter `me` come to. */
    ghost function RoundsLeft(me: nat, start: nat, n: nat, limit: nat): Option<Progress>
      requires Ready()
      reads this
    {
      if Inside() && me < |refs| && refs[me].kind.Counter? && start <= aline.value.1 + 1 then
        RoundsDone(lists[aline.value.0], MAX_DEPTH - depth, Here(), me, start, n, limit)
      else None
    }

    /** What the rest of a round comes to. */
    ghost function RoundLeft(): Option<Progress>
      requires Ready()
      reads this
    {
      if Inside() then RoundDone(lists[aline.value.0], MAX_DEPTH - depth, Here()) else None
    }

    // ---- small steps ----

    method Err(e: Problem)
      requires Ready()
      modifies this`lineErr, this`errnum, this`diags
      ensures Ready() && Core() == old(Core())
      ensures Rest() == Reported(old(Rest()), e, LocOf(old(Core())))
      ensures errnum >= old(errnum)
    {
      hide WellFormed, Reported, LocOf;
      ErrAt(e, CurrentLoc());
    }

    method ErrAt(e: Problem, loc: nat)
      requires Ready()
      modifies this`lineErr, this`errnum, this`diags
      ensures Ready() && Core() == old(Core())
      ensures Rest() == Reported(old(Rest()), e, loc)
      ensures errnum >= old(errnum)
    {
      hide WellFormed, Registers, Problem.Warning;
      lineErr := true;
      if !e.Warning() {
        errnum := errnum + 1;
      }
      diags := diags + [(e, loc)];
    }

    method PushRef(r: Ref) returns (k: nat)
      requires Ready() && (r.kind.EquText? ==> r.kind.list < |lists| && lists[r.kind.list] != [])
      modifies this`refs, this`counters
      ensures k == |old(refs)| && Ready()
      ensures Core() == old(Core()).(refs := old(refs) + [r],
                counters := old(counters) + if r.kind.Counter? then [k] else [])
    {
      k := |refs|;
      if r.kind.Counter? {
        counters := counters + [k];
      }
      refs := refs + [r];
    }

    /** Drop the innermost FOR counter: its names go. */
    method PopCounter()
      requires Ready()
      modifies this`refs, this`counters
      ensures Ready()
      ensures if old(counters) == [] then Core() == old(Core())
              else var k := old(counters)[|old(counters)| - 1];
                   Core() == old(Core()).(counters := old(counters)[..|old(counters)| - 1],
                       refs := old(refs)[k := old(refs)[k].(names := [])])
    {
      if counters != [] {
        var k := counters[|counters| - 1];
        counters := counters[..|counters| - 1];
        refs := refs[k := refs[k].(names := [])];
      }
    }

    /** Stop on one of the assembler's own limits, reporting it once. */
    method Halt(e: Problem)
      requires WellFormed(Core().(vcont := false)) && Registers()
      modifies this`halted, this`vcont, this`lineErr, this`errnum, this`diags
      ensures Ready() && Core() == old(Core()).(halted := true, vcont := false)
      ensures depth == old(depth) && Follows(old(Core()), Core())
      ensures if old(halted) then Rest() == old(Rest())
              else Rest() == Reported(old(Rest()), e, LocOf(old(Core()).(vcont := false)))
      ensures errnum >= old(errnum)
    {
      hide WellFormed, Follows, Reported, LocOf;
      ghost var was := Core();
      vcont := false;
      HaltKeeps(was, Core());
      if !halted {
        halted := true;
        HaltKeeps(was, Core());
        LocStays(was.(vcont := false), Core());
        Err(e);
      }
    }

    /** Count one line of expansion; false once over the limit. */
    method ExpandOne() returns (more: bool)
      requires Ready() && vcont
      modifies this`expanded, this`halted, this`vcont, this`lineErr, this`errnum, this`diags
      ensures Ready() && depth == old(depth) && Follows(old(Core()), Core())
      ensures more <==> old(expanded) < MAX_EXPANSION
      ensures Core() == if more then old(Core()).(expanded := old(expanded) + 1)
                        else old(Core()).(expanded := old(expanded) + 1, halted := true, vcont := false)
      ensures Rest() == if more then old(Rest()) else Reported(old(Rest()), TooMuchExpansion, LocOf(old(Core())))
      ensures errnum >= old(errnum)
    {
      hide WellFormed, Follows, Reported, LocOf;
      ghost var was := Core();
      CountKeeps(was);
      expanded := expanded + 1;
      ghost var now := Core();
      if expanded > MAX_EXPANSION {
        LocStays(was, now.(vcont := false));
        Halt(TooMuchExpansion);
        FollowsOn(was, now, Core());
      }
      more := !halted;
    }

    function NextLine(): (r: Option<(nat, nat)>)
      requires Ready()
      reads this
      ensures r.Some? ==> aline.Some? && r.value == (aline.value.0, aline.value.1 + 1) && r.value.1 < |lists[r.value.0]|
    {
      if aline.None? then None
      else if aline.value.1 + 1 < |lists[aline.value.0]| then Some((aline.value.0, aline.value.1 + 1))
      else None
    }

    function CurrentLoc(): (r: nat)
      requires Ready()
      reads this
      ensures r == LocOf(Core())
    {
      if aline.None? then 0 else lists[aline.value.0][aline.value.1].loc
    }

    method AddLine(text: string)
      requires Ready()
      modifies this`out
      ensures Ready() && Core() == old(Core()) && out == old(out) + [Line(text, LocOf(old(Core())))]
    {
      ghost var was := Core();
      out := out + [Line(text, CurrentLoc())];
    }

    method EvalText(t: string) returns (status: Status, v: int)
      requires Ready()
      modifies this`regs, this`saveOper
      ensures var e := EvalExpr(t, old(regs), old(saveOper));
              (status, v, regs, saveOper) == (e.0, e.1, e.2.regs, e.2.save)
      ensures Ready() && Core() == old(Core())
    {
      hide EvalExpr;
      ghost var was := Core();
      var st;
      status, v, st := EvaluateExpression(t, regs, saveOper);
      regs, saveOper := st.regs, st.save;
    }

    // ---- pass 1 ----

    method Trav2(buffer: string, dest: string, wdecl: int) returns (w: int, d: string)
      requires Ready()
      modifies this
      ensures Ready() && depth == old(depth) && Follows(old(Core()), Core())
      ensures old(statefine) == 0 && wdecl > SLBL ==>
                Rewrites(Operands(old(Names()), wdecl == SPSE, MAX_DEPTH - old(depth), buffer, dest),
                         wdecl, old(Core()), old(Rest()), w, d, Core(), Rest())
      ensures old(statefine) == 0 && wdecl <= SLBL ==>
                var o := LineStart(old(Names()), old(symtbl), MAX_DEPTH - old(depth), buffer, dest);
                o.Some? && (o.value.Asserts? ==> wdecl == SNIL) ==>
                  Starts(o.value, dest, old(Core()), old(Rest()), w, d, Core(), Rest())
      ensures old(statefine) > 0 ==>
                Passes(Passed(MAX_DEPTH - old(depth), buffer, old(statefine)), wdecl, old(Core()), old(Rest()), w,
                       Core(), Rest())
      decreases MAX_DEPTH - depth, 0, 1
      ensures errnum >= old(errnum)
    {
      hide WellFormed, Follows, Operands, LineStart, Passed, Starts, Reported, LocOf, Registers;
      DepthFits(Core());
      if depth >= MAX_DEPTH {
        OutOfFuel(Names(), wdecl == SPSE, symtbl, buffer, dest);
        Halt(NestingTooDeep);
        return SERR, dest;
      }
      w, d := Deeper(buffer, dest, wdecl);
    }

    /** One level deeper. */
    method Deeper(buffer: string, dest: string, wdecl: int) returns (w: int, d: string)
      requires Ready() && depth < MAX_DEPTH
      modifies this
      ensures Ready() && depth == old(depth) && Follows(old(Core()), Core())
      ensures old(statefine) == 0 && wdecl > SLBL ==>
                Rewrites(Operands(old(Names()), wdecl == SPSE, MAX_DEPTH - old(depth), buffer, dest),
                         wdecl, old(Core()), old(Rest()), w, d, Core(), Rest())
      ensures old(statefine) == 0 && wdecl <= SLBL ==>
                var o := LineStart(old(Names()), old(symtbl), MAX_DEPTH - old(depth), buffer, dest);
                o.Some? && (o.value.Asserts? ==> wdecl == SNIL) ==>
                  Starts(o.value, dest, old(Core()), old(Rest()), w, d, Core(), Rest())
      ensures old(statefine) > 0 ==>
                Passes(Passed(MAX_DEPTH - old(depth), buffer, old(statefine)), wdecl, old(Core()), old(Rest()), w,
                       Core(), Rest())
      decreases MAX_DEPTH - depth, 0, 0
      ensures errnum >= old(errnum)
    {
      hide WellFormed, Follows, Operands, LineStart, Passed, Starts, Rewrites, Passes, Registers, LocOf, Reported;
      ghost var was, rest := Core(), Rest();
      DeeperKeeps(was);
      depth := depth + 1;
      w, d := Step(buffer, dest, wdecl);
      StartsBack(dest, was, rest, w, d, Core(), Rest());
      PlainlyBack(wdecl, was, rest, w, d, Core(), Rest());
      BackKeeps(was, was.(depth := was.depth + 1), Core());
      depth := depth - 1;
    }

    /** Rewrite one line, or the rest of one. */
    method Step(buffer: string, dest: string, wdecl: int) returns (w: int, d: string)
      requires Ready() && depth >= 1
      modifies this
      ensures Ready() && depth == old(depth) && Follows(old(Core()), Core())
      ensures old(statefine) == 0 && wdecl > SLBL ==>
                Rewrites(Operands(old(Names()), wdecl == SPSE, MAX_DEPTH + 1 - old(depth), buffer, dest),
                         wdecl, old(Core()), old(Rest()), w, d, Core(), Rest())
      ensures old(statefine) == 0 && wdecl <= SLBL ==>
                var o := LineStart(old(Names()), old(symtbl), MAX_DEPTH + 1 - old(depth), buffer, dest);
                o.Some? && (o.value.Asserts? ==> wdecl == SNIL) ==>
                  Starts(o.value, dest, old(Core()), old(Rest()), w, d, Core(), Rest())
      ensures old(statefine) > 0 ==>
                Passes(Passed(MAX_DEPTH + 1 - old(depth), buffer, old(statefine)), wdecl, old(Core()), old(Rest()), w,
                       Core(), Rest())
      decreases MAX_DEPTH - depth, 6
      ensures errnum >= old(errnum)
    {
      hide WellFormed, Follows, GetToken, Starts, OperandWord, LineWord, Reported, LocOf, Symbols.Name, PseudoOf, Upper;
      ghost var was := Core();
      FollowsSelf(was);
      var (tok, rest) := GetToken(buffer);
      if tok.kind.End? {
        return wdecl, dest;
      } else if tok.kind.Comm? {
        w, d := Comment(rest, dest, wdecl);
      } else if tok.kind.Char? {
        if statefine > 0 {
          w := PassWord(tok.text, rest, dest, wdecl);
          return w, dest;
        }
        w, d := Word(tok.text, rest, dest, wdecl);
      } else if statefine > 0 {
        return SNIL, dest;
      } else if wdecl <= SLBL {
        Err(UnexpectedToken);
        return SERR, dest;
      } else {
        var e := Concat(dest, tok.text);
        if e.None? {
          Err(LineTooLong);
          return SERR, dest;
        }
        w, d := Trav2(rest, e.value, wdecl);
      }
    }

    /** A comment line: only an assertion does anything. */
    method Comment(rest: string, dest: string, wdecl: int) returns (w: int, d: string)
      requires Ready() && depth >= 1
      modifies this
      ensures Ready() && depth == old(depth) && Follows(old(Core()), Core())
      ensures wdecl > SLBL || old(statefine) > 0 ==>
                w == wdecl && d == dest && Core() == old(Core()) && Rest() == old(Rest())
      ensures old(statefine) == 0 && wdecl == SNIL ==>
                var o := LineAsserts(old(Names()), old(symtbl), MAX_DEPTH - old(depth), rest, dest);
                o.Some? ==> Starts(o.value, dest, old(Core()), old(Rest()), w, d, Core(), Rest())
      decreases MAX_DEPTH - depth, 1
      ensures errnum >= old(errnum)
    {
      hide WellFormed, Follows, GetToken, Upper, Registers, Operands, Checked, LocOf;
      d, w := dest, wdecl;
      FollowsSelf(Core());
      if wdecl == SNIL && statefine == 0 {
        var (tok, rest2) := GetToken(rest);
        if Upper(tok.text) == "ASSERT" {
          d := Assertion(rest2, d);
        }
      }
    }

    /** An assertion: its expression is rewritten and must not be zero. */
    method Assertion(expr: string, dest: string) returns (d: string)
      requires Ready() && depth >= 1
      modifies this
      ensures Ready() && depth == old(depth) && Follows(old(Core()), Core())
      ensures var z := Operands(old(Names()), false, MAX_DEPTH - old(depth), expr, dest);
              old(statefine) == 0 && z.Some? ==>
                Core() == old(Core()) && Rest() == Checked(old(Rest()), z.value, LocOf(old(Core())))
      decreases MAX_DEPTH - depth, 0, 2
      ensures errnum >= old(errnum)
    {
      hide WellFormed, Follows, EvalExpr, Operands, LineStart, Passed, Starts, Passes, Reported, LocOf, Judged;
      var x;
      x, d := Trav2(expr, dest, SVAL);
      var status, v := EvalText(d);
      Judge(status, v);
    }

    method Judge(status: Status, v: int)
      requires Ready()
      modifies this`noassert, this`lineErr, this`errnum, this`diags
      ensures Ready() && Rest() == Judged(old(Rest()), status, v, LocOf(old(Core())))
      ensures errnum >= old(errnum)
    {
      hide WellFormed, Reported, LocOf, Registers;
      if status.BadExpr? || status.DivZero? {
        Err(BadAssert);
        return;
      }
      if status.Overflow? {
        Err(ArithmeticOverflow);
      }
      noassert := false;
      if v == 0 {
        Err(AssertionFailed);
      }
    }

    /** A word of a line passed over: FOR and ROF are counted, and what may be a
        label of the line is passed. */
    method PassWord(token: string, rest: string, dest: string, wdecl: int) returns (w: int)
      requires Ready() && depth >= 1 && statefine > 0
      modifies this
      ensures Ready() && depth == old(depth) && Follows(old(Core()), Core())
      ensures var n := if Symbols.Name(token) then Passed(MAX_DEPTH - old(depth), rest, old(statefine))
                       else
                         Some(old(statefine) +
                              if PseudoOf(token).Rof? then -1 else if PseudoOf(token).For? then 1 else 0);
              Passes(n, wdecl, old(Core()), old(Rest()), w, Core(), Rest())
      decreases MAX_DEPTH - depth, 1
      ensures errnum >= old(errnum)
    {
      hide WellFormed, Follows, Operands, LineStart, Upper, OpIndex, PseudoOf, LocOf, Reported, Registers, Passed;
      FollowsSelf(Core());
      OpcodeIsNoPseudo(token);
      var pseudo := PseudoOf(token);
      if pseudo.Rof? {
        statefine := statefine - 1;
        w := SERR;
      } else if pseudo.For? {
        statefine := statefine + 1;
        w := SERR;
      } else if pseudo.Curline? || pseudo.Equ? || OpIndex(Upper(token)) < EQUOP {
        w := SNIL;
      } else {
        var d;
        w, d := Trav2(rest, dest, SNIL);
      }
    }

    /** A word: a pseudo-opcode, an opcode, or a name. */
    method Word(token: string, rest: string, dest: string, wdecl: int) returns (w: int, d: string)
      requires Ready() && depth >= 1 && statefine == 0
      modifies this
      ensures Ready() && depth == old(depth) && Follows(old(Core()), Core())
      ensures wdecl > SLBL ==>
                Rewrites(OperandWord(old(Names()), wdecl == SPSE, MAX_DEPTH - old(depth), token, rest, dest),
                         wdecl, old(Core()), old(Rest()), w, d, Core(), Rest())
      ensures wdecl <= SLBL ==>
                var o := LineWord(old(Names()), old(symtbl), MAX_DEPTH - old(depth), token, rest, dest);
                o.Some? ==> Starts(o.value, dest, old(Core()), old(Rest()), w, d, Core(), Rest())
      decreases MAX_DEPTH - depth, 5
      ensures errnum >= old(errnum)
    {
      hide WellFormed, Follows, Operands, LineStart, OperandName, LineLabel, Upper, OpIndex, PseudoOf, Named;
      hide Continued, LocOf, ForDone, GoesTo, Reported;
      ghost var was := Core();
      FollowsSelf(was);
      var up := Upper(token);
      var op := OpIndex(up);
      OpcodeIsNoPseudo(token);
      d := dest;
      var pseudo := PseudoOf(token);
      if pseudo.Rof? {
        if wdecl <= SLBL {
          return SROF, dest;
        }
        Err(NotAllowedHere);
        return SERR, dest;
      } else if pseudo.For? {
        if wdecl <= SLBL {
          w, d := BlkFor(rest, dest);
          return;
        }
        Err(NotAllowedHere);
        return SERR, dest;
      } else if pseudo.Curline? {
        if wdecl > SLBL {
          var e := Concat(dest, Spaced(ShowNat(line), rest));
          if e.Some? {
            w, d := Trav2(rest, e.value, wdecl);
            return;
          }
          Err(LineTooLong);
        } else {
          Err(CurlineLabel);
        }
        return SERR, dest;
      } else if pseudo.Equ? {
        if wdecl <= SLBL {
          w := EquTbl(rest);
          return w, dest;
        }
        Err(NotAllowedHere);
        return SERR, dest;
      } else if op < EQUOP {
        if wdecl <= SLBL {
          w, d := Instruct(op, up, rest, dest);
          return;
        }
        Err(NotAllowedHere);
        return SERR, dest;
      } else {
        w, d := Name(token, rest, dest, wdecl);
      }
    }

    /** An opcode: it is copied with what is attached to it, the labels before it
        are defined, and it ends the line. */
    method Instruct(op: nat, up: string, rest: string, dest: string) returns (w: int, d: string)
      requires Ready() && depth >= 1 && statefine == 0 && op < EQUOP
      modifies this
      ensures Ready() && depth == old(depth) && Follows(old(Core()), Core())
      ensures var (run, rest2) := Run(rest);
              var z := OperandsOn(old(Names()), op >= OPNUM, MAX_DEPTH - old(depth), rest2,
                  Concat(dest, Spaced(up + run, rest2)));
              z.Some? ==> Starts(Opens(old(symtbl), op, z.value), dest, old(Core()), old(Rest()), w, d, Core(), Rest())
      decreases MAX_DEPTH - depth, 1
      ensures errnum >= old(errnum)
    {
      hide WellFormed, Follows, Operands, Run, LineStart, Reported, LocOf;
      ghost var was := Core();
      var (run, rest2) := Run(rest);
      var e := Concat(dest, Spaced(up + run, rest2));
      FollowsSelf(was);
      if e.None? {
        Err(LineTooLong);
        return SERR, dest;
      }
      w, d := Trav2(rest2, e.value, if op < OPNUM then SVAL else SPSE);
      if w == SERR {
        return;
      }
      ghost var mid := Core();
      EndInstruction(op);
      FollowsOn(was, mid, Core());
      w := SCOM;
    }

    method EndInstruction(op: nat)
      requires Ready()
      modifies this`refs, this`counters, this`symtbl, this`line, this`vcont
      ensures Ready() && depth == old(depth) && Follows(old(Core()), Core())
      ensures Core() == old(Core()).(refs := old(refs) + Labelled(old(symtbl), old(line)), vcont := old(vcont)
                && op != ENDOP)
      ensures Rest() == old(Rest()).(symtbl := [], line := old(line) + if op < OPNUM then 1 else 0)
    {
      hide WellFormed, Follows, Reported, LocOf;
      ghost var was := Core();
      DefineLabels();
      ghost var mid := Core();
      if op < OPNUM {
        line := line + 1;
      } else if op == ENDOP {
        vcont := false;
      }
      Settle(was, mid, Core());
    }

    /** The labels before an instruction name its number. */
    method DefineLabels()
      requires Ready()
      modifies this`refs, this`counters, this`symtbl
      ensures Ready() && Follows(old(Core()), Core()) && symtbl == []
      ensures Core() == old(Core()).(refs := old(refs) + Labelled(old(symtbl), line))
    {
      hide WellFormed, Follows, Reported, LocOf;
      ghost var was := Core();
      FollowsSelf(was);
      if symtbl != [] {
        var r := Ref(symtbl, Label(line), false);
        symtbl := [];
        var k := PushRef(r);
        RefKeeps(was, was, Core(), r);
      }
    }

    /** A name: with FOR counters appended, an EQU to substitute, a number to
        insert, a label to define, or text to copy. */
    method Name(word: string, after: string, dest: string, wdecl: int) returns (w: int, d: string)
      requires Ready() && depth >= 1 && statefine == 0
      modifies this
      ensures Ready() && depth == old(depth) && Follows(old(Core()), Core())
      ensures var n := Named(old(refs), word, after);
              && (n.Some? && wdecl > SLBL ==>
                    Rewrites(OperandName(old(Names()), wdecl == SPSE, MAX_DEPTH - old(depth), n.value.0, n.value.1,
                        dest),
                             wdecl, old(Core()), old(Rest()), w, d, Core(), Rest()))
              && (n.Some? && wdecl <= SLBL ==>
                    var o := LineLabel(old(Names()), old(symtbl), MAX_DEPTH - old(depth), n.value.0, n.value.1, dest);
                    o.Some? ==> Starts(o.value, dest, old(Core()), old(Rest()), w, d, Core(), Rest()))
      decreases MAX_DEPTH - depth, 4, 1
      ensures errnum >= old(errnum)
    {
      hide WellFormed, Follows, OperandName, LineLabel, Named, Starts, Registers;
      ghost var was := Core();
      FollowsSelf(was);
      var token, rest := AppendCounters(word, after);
      w, d := Known(token, rest, dest, wdecl);
    }

    /** A name, its counters appended. */
    method Known(token: string, rest: string, dest: string, wdecl: int) returns (w: int, d: string)
      requires Ready() && depth >= 1 && statefine == 0
      modifies this
      ensures Ready() && depth == old(depth) && Follows(old(Core()), Core())
      ensures wdecl > SLBL ==>
                Rewrites(OperandName(old(Names()), wdecl == SPSE, MAX_DEPTH - old(depth), token, rest, dest),
                         wdecl, old(Core()), old(Rest()), w, d, Core(), Rest())
      ensures wdecl <= SLBL ==>
                var o := LineLabel(old(Names()), old(symtbl), MAX_DEPTH - old(depth), token, rest, dest);
                o.Some? ==> Starts(o.value, dest, old(Core()), old(Rest()), w, d, Core(), Rest())
      decreases MAX_DEPTH - depth, 4, 0
      ensures errnum >= old(errnum)
    {
      hide WellFormed, Follows, Operands, LineStart, Starts, Reported, LocOf, Registers, Passed;
      FollowsSelf(Core());
      var found := Lookup(refs, token);
      if found.Some? && refs[found.value].kind.EquText? && !refs[found.value].visit {
        w, d := EquSub(rest, dest, wdecl, found.value);
        return;
      } else if found.Some? && refs[found.value].kind.EquText? {
        Err(RecursiveEqu);
      } else if found.Some? && wdecl <= SLBL {
        Err(LabelTwice);
      } else if found.None? && wdecl <= SLBL {
        w, d := NewLabel(token, rest, dest);
        return;
      } else {
        var text := if found.None? then token else Shown(refs[found.value].kind, line, wdecl == SPSE);
        var e := Concat(dest, Spaced(text, rest));
        if e.Some? {
          w, d := Trav2(rest, e.value, wdecl);
          return;
        }
        Err(LineTooLong);
      }
      w, d := SERR, dest;
    }

    /** A label of the line. */
    method NewLabel(token: string, rest: string, dest: string) returns (w: int, d: string)
      requires Ready() && depth >= 1 && statefine == 0 && Lookup(refs, token).None?
      modifies this
      ensures Ready() && depth == old(depth) && Follows(old(Core()), Core())
      ensures var o := LineLabel(old(Names()), old(symtbl), MAX_DEPTH - old(depth), token, rest, dest);
              o.Some? ==> Starts(o.value, dest, old(Core()), old(Rest()), w, d, Core(), Rest())
      decreases MAX_DEPTH - depth, 3
      ensures errnum >= old(errnum)
    {
      hide WellFormed, Follows, Operands, LineStart, Starts, Reported, LocOf, Registers, Passed, Lookup;
      ghost var was, before := Core(), Rest();
      if |symtbl| < GRPMAX {
        symtbl := symtbl + [token];
      } else {
        Err(TooManyLabels);
      }
      ghost var labelled := Rest();
      w, d := Trav2(AfterColon(rest), dest, SLBL);
      LabelsAside(dest, was, before, labelled, w, d, Core(), Rest());
    }

    /** `name&counter`: the counter's value, as two digits. */
    method AppendCounters(word: string, after: string) returns (token: string, rest: string)
      requires Ready()
      modifies this`lineErr, this`errnum, this`diags
      ensures Ready() && Core() == old(Core())
      ensures var n := Named(refs, word, after); n.Some? ==> (token, rest) == n.value && Rest() == old(Rest())
      ensures errnum >= old(errnum)
    {
      hide WellFormed, GetToken, Reported, LocOf;
      token, rest := word, after;
      var ok := true;
      while Head(rest) == '&' && IsAlpha(Head(Tail(rest)))
        invariant Ready() && Core() == old(Core())
        invariant errnum >= old(errnum)
        invariant Named(refs, word, after).Some? ==>
                    ok && Named(refs, token, rest) == Named(refs, word, after) && Rest() == old(Rest())
        decreases |rest|
      {
        var (t, next) := GetToken(Tail(rest));
        rest := next;
        if !t.kind.Char? || !ok {
          break;
        }
        var found := Lookup(refs, t.text);
        if found.Some? && refs[found.value].kind.Counter? {
          var e := Concat(token, ShowTwo(refs[found.value].kind.v));
          if e.Some? {
            token := e.value;
          } else {
            Err(LineTooLong);
          }
        } else {
          Err(NeedsForCounter);
          ok := false;
        }
      }
    }

    /** `label EQU text`, and the EQU lines that continue it: one new symbol of the
        names before it, standing for exactly those lines. */
    method EquTbl(expr: string) returns (w: int)
      requires Ready()
      modifies this
      ensures Ready() && depth == old(depth) && Follows(old(Core()), Core()) && w == SVAL
      ensures var more := Continued(old(Core()));
              if old(symtbl) == [] then Core() == old(Core())
                  && Rest() == Reported(old(Rest()), EquWithoutName, LocOf(old(Core())))
              else && Core() == old(Core()).(lists := old(lists) + [[Line(expr, LocOf(old(Core())))] + more],
                  aline := Further(old(aline), |more|),
                                             refs := old(refs) + [Ref(old(symtbl), EquText(|old(lists)|), false)])
                   && Rest() == old(Rest()).(symtbl := [])
      ensures errnum >= old(errnum)
    {
      hide Follows, WellFormed, Continued, LocOf, Registers, Reported, EquLines, OnLine;
      ghost var was := Core();
      FollowsSelf(was);
      w := SVAL;
      if symtbl == [] {
        Err(EquWithoutName);
        return;
      }
      var body := Continuation(expr);
      BodyKeeps(was, Core(), body);
      AddEqu(body);
    }

    /** The names waiting become a symbol for these lines. */
    method AddEqu(body: seq<Line>)
      requires Ready() && body != [] && WellFormed(Core().(lists := lists + [body]))
      modifies this`lists, this`refs, this`counters, this`symtbl
      ensures Ready() && symtbl == []
      ensures Core() == old(Core()).(lists := old(lists) + [body],
                refs := old(refs) + [Ref(old(symtbl), EquText(|old(lists)|), false)])
    {
      hide WellFormed, Reported, LocOf;
      lists := lists + [body];
      var r := Ref(symtbl, EquText(|lists| - 1), false);
      symtbl := [];
      var k := PushRef(r);
    }

    /** The lines of an EQU: its own, and the EQU lines right after it, which the
        current line moves to. */
    method Continuation(expr: string) returns (body: seq<Line>)
      requires Ready()
      modifies this`aline
      ensures Ready() && body == [Line(expr, LocOf(old(Core())))] + Continued(old(Core()))
      ensures Core() == old(Core()).(aline := Further(old(aline), |body| - 1))
    {
      hide WellFormed, Continued, LocOf, Registers;
      ghost var was := Core();
      body := [Line(expr, CurrentLoc())];
      ghost var all := body + Continued(was);
      ghost var left := Continued(was);
      var next := TakeEqu();
      while next.Some?
        invariant Ready() && body != [] && all == body + left
        invariant Core() == was.(aline := Further(was.aline, |body| - if next.Some? then 0 else 1))
        invariant if next.None? then left == [] else left == [next.value] + Continued(Core())
        decreases |left|
      {
        TakeFirst(all, body, left);
        body := body + [next.value];
        left := left[1..];
        next := TakeEqu();
      }
      assert body + [] == body;
    }

    /** The next line if it is an EQU, the word EQU taken off: the current line
        moves to it. */
    method TakeEqu() returns (l: Option<Line>)
      requires Ready()
      modifies this`aline
      ensures Ready()
      ensures var more := Continued(old(Core()));
              if more == [] then l.None? && Core() == old(Core())
              else && l == Some(more[0]) && Core() == old(Core()).(aline := Further(old(aline), 1))
                   && more == [more[0]] + Continued(Core())
    {
      hide WellFormed, GetToken, Upper, Continued, Registers;
      ContinuedStep(Core());
      if NextLine().None? {
        return None;
      }
      var nx := NextLine().value;
      MoveKeeps(Core());
      var t := lists[nx.0][nx.1];
      var (tok, rest) := GetToken(t.text);
      if Upper(tok.text) != "EQU" {
        return None;
      }
      aline := Some(nx);
      l := Some(Line(rest, t.loc));
    }

    /** Substitute the EQU `ri`: its first line in place of the name, its other
        lines as lines of their own, then the rest of the line. */
    method EquSub(expr: string, dest: string, wdecl: int, ri: nat) returns (w: int, d: string)
      requires Ready() && depth >= 1 && ri < |refs| && refs[ri].kind.EquText? && !refs[ri].visit && statefine == 0
      modifies this
      ensures Ready() && depth == old(depth) && Follows(old(Core()), Core())
      ensures wdecl > SLBL ==>
                Rewrites(OperandEqu(old(Names()), wdecl == SPSE, MAX_DEPTH - old(depth), ri, expr, dest),
                         wdecl, old(Core()), old(Rest()), w, d, Core(), Rest())
      decreases MAX_DEPTH - depth, 3
      ensures errnum >= old(errnum)
    {
      hide WellFormed, Follows, Operands, LineStart, Reported, LocOf;
      ghost var was := Core();
      EquList(was, ri);
      w, d := InPlace(dest, wdecl, ri);
      d := WithBlank(d, expr);
      ghost var mid := Core();
      w, d := Trav2(expr, d, w);
      FollowsOn(was, mid, Core());
    }

    /** The lines of the EQU `ri`, the symbol marked while they are rewritten. */
    method InPlace(dest: string, wdecl: int, ri: nat) returns (w: int, d: string)
      requires Ready() && depth >= 1 && ri < |refs| && refs[ri].kind.EquText? && !refs[ri].visit && statefine == 0
      requires refs[ri].kind.list < |lists| && lists[refs[ri].kind.list] != []
      modifies this
      ensures Ready() && depth == old(depth) && Follows(old(Core()), Core())
      ensures wdecl > SLBL && |old(lists[refs[ri].kind.list])| == 1 ==>
                Rewrites(Operands(old(Names()).Marked(ri), wdecl == SPSE, MAX_DEPTH - old(depth),
                    old(lists[refs[ri].kind.list][0].text), dest),
                         wdecl, old(Core()), old(Rest()), w, d, Core(), Rest())
      decreases MAX_DEPTH - depth, 2, 1
      ensures errnum >= old(errnum)
    {
      hide WellFormed, Follows, Operands, Rewrites, Registers;
      ghost var was, rest := Core(), Rest();
      var list := refs[ri].kind.list;
      VisitKeeps(was, ri);
      refs := refs[ri := refs[ri].(visit := true)];
      var saved := aline;
      aline := Some((list, 0));
      ghost var mark := Core();
      w, d := MarkedLines(dest, wdecl);
      UnvisitKeeps(was, mark, Core(), ri);
      UnvisitRewrites(was, rest, wdecl, ri, w, d, Core(), Rest());
      aline := saved;
      refs := refs[ri := refs[ri].(visit := false)];
    }

    /** The lines of an EQU, from its first. */
    method MarkedLines(dest: string, wdecl: int) returns (w: int, d: string)
      requires Ready() && depth >= 1 && statefine == 0
      requires aline.Some? && aline.value.1 == 0 && aline.value.0 < |lists| && lists[aline.value.0] != []
      modifies this
      ensures Ready() && depth == old(depth) && Follows(old(Core()), Core())
      ensures wdecl > SLBL && |old(lists[aline.value.0])| == 1 ==>
                Rewrites(Operands(old(Names()), wdecl == SPSE, MAX_DEPTH - old(depth),
                    old(lists[aline.value.0][0].text), dest),
                         wdecl, old(Core()), old(Rest()), w, d, Core(), Rest())
      decreases MAX_DEPTH - depth, 2, 0, 1
      ensures errnum >= old(errnum)
    {
      hide WellFormed, Follows, Operands, LineStart, Passed, Starts, Registers;
      ghost var mark := Core();
      w, d := Trav2(lists[aline.value.0][0].text, dest, wdecl);
      w, d := OtherLines(mark, w, d);
    }

    /** The other lines of an EQU, each a line of its own. */
    method OtherLines(ghost mark: Mem, first: int, dest: string) returns (w: int, d: string)
      requires Ready() && depth >= 1 && Follows(mark, Core()) && mark.aline.Some?
      modifies this
      ensures Ready() && depth == old(depth) && Follows(mark, Core())
      ensures old(NextLine()).None? ==> w == first && d == dest && Core() == old(Core()) && Rest() == old(Rest())
      decreases MAX_DEPTH - depth, 2, 0, 0
      ensures errnum >= old(errnum)
    {
      hide WellFormed, Follows, Operands, LineStart, Rewrites, Starts, Reported, LocOf;
      w, d := first, dest;
      StillThere(mark, Core());
      while vcont && NextLine().Some?
        invariant Ready() && depth == old(depth) && Follows(mark, Core()) && aline.Some? && aline.value.0 < |lists|
        invariant errnum >= old(errnum)
        invariant old(NextLine()).None? ==> w == first && d == dest && Core() == old(Core()) && Rest() == old(Rest())
        decreases if vcont then 1 else 0, |lists[aline.value.0]| - aline.value.1
      {
        if statefine == 0 && w == SCOM {
          AddLine(d);
        }
        ghost var mid := Core();
        var more := ExpandOne();
        FollowsOn(mark, mid, Core());
        if !more {
          break;
        }
        SameLine(mid, Core());
        mid := Core();
        w, d := Advance();
        FollowsOn(mark, mid, Core());
      }
    }

    /** Move to the next line of the current list and rewrite it. */
    method Advance() returns (w: int, d: string)
      requires Ready() && depth >= 1 && NextLine().Some?
      modifies this
      ensures Ready() && depth == old(depth) && Follows(old(Core()), Core())
      ensures aline.Some? && aline.value.0 == old(aline).value.0 && aline.value.1 > old(aline).value.1
      ensures aline.value.0 < |lists| && aline.value.1 < |lists[aline.value.0]|
      ensures lists[aline.value.0] == old(lists)[aline.value.0]
      ensures old(statefine) == 0 ==>
                var next := old(Core()).(aline := Further(old(aline), 1));
                var o := LineStart(old(Names()), old(symtbl), MAX_DEPTH - old(depth),
                    old(lists[aline.value.0][aline.value.1 + 1].text), "");
                o.Some? ==> Starts(o.value, "", next, old(Rest()), w, d, Core(), Rest())
      ensures old(statefine) > 0 ==>
                Passes(Passed(MAX_DEPTH - old(depth), old(lists[aline.value.0][aline.value.1 + 1].text),
                    old(statefine)),
                       SNIL, old(Core()).(aline := Further(old(aline), 1)), old(Rest()), w, Core(), Rest())
      decreases MAX_DEPTH - depth, 1, 0
      ensures errnum >= old(errnum)
    {
      hide WellFormed, Follows, Operands, LineStart, Passed, Rewrites, Starts, Passes, Reported, LocOf;
      ghost var was := Core();
      var nx := NextLine().value;
      MoveKeeps(was);
      aline := Some(nx);
      ghost var moved := Core();
      w, d := Trav2(lists[nx.0][nx.1].text, "", SNIL);
      MovedOn(was, moved, Core());
    }

    /** `FOR expression`: the lines up to ROF, as often as the expression says. */
    method BlkFor(expr: string, dest: string) returns (w: int, d: string)
      requires Ready() && depth >= 1 && statefine == 0
      modifies this
      ensures Ready() && depth == old(depth) && Follows(old(Core()), Core())
      ensures old(vcont) && old(aline).Some? ==>
                var q := ForDone(old(lists)[old(aline).value.0], MAX_DEPTH - old(depth), old(Here()), old(symtbl),
                    expr);
                q.Some? ==> w == SFOR && GoesTo(old(Core()), old(Rest()), q.value, Core(), Rest())
      decreases MAX_DEPTH - depth, 3
      ensures errnum >= old(errnum)
    {
      hide WellFormed, Follows, ForDone, AllRounds, GoesTo, Reported, LocOf;
      ghost var was := Core();
      FollowsSelf(was);
      w := SFOR;
      var group, times;
      group, times, d := ForHead(expr);
      ghost var start, rest := Core(), Rest();
      if times > 0 {
        ghost var rounds: nat;
        d, rounds := Unroll(group, times % 0x1_0000);
        FollowsOn(was, start, Core());
        HeadGoes(was, old(Rest()), start, rest, Core(), Rest());
      } else if times == 0 {
        statefine := statefine + 1;
        HeadPasses(was, old(Rest()), start, rest);
      }
    }

    /** The labels before a FOR and its expression: the counter's name and how
        often it goes round. */
    method ForHead(expr: string) returns (group: seq<string>, times: int, d: string)
      requires Ready() && depth >= 1 && statefine == 0
      modifies this
      ensures Ready() && depth == old(depth) && Follows(old(Core()), Core()) && times >= -1
      ensures old(vcont) && old(aline).Some? ==>
                var q := ForDone(old(lists)[old(aline).value.0], MAX_DEPTH - old(depth), old(Here()), old(symtbl),
                    expr);
                q.Some? ==>
                  && times >= 0 && Headed(old(Core()), old(Rest()), Core(), Rest())
                  && if times == 0 then q == Some(ProgressOf(Core(), Rest().(statefine := 1)))
                     else
                       var r := AllRounds(Counting(Core(), group), Rest(), |refs|, times % 0x1_0000);
                       r.Some? && q == Some(Dropped(r.value, |refs|))
      decreases MAX_DEPTH - depth, 2, 6
      ensures errnum >= old(errnum)
    {
      hide WellFormed, Follows, Operands, LineStart, ForDone, AllRounds, EvalExpr, Reported, LocOf;
      ghost var was, rest := Core(), Rest();
      DepthFits(was);
      ghost var goes := vcont && aline.Some?
          && ForDone(lists[aline.value.0], MAX_DEPTH - depth, Here(), symtbl, expr).Some?;
      group := TakeGroup();
      ghost var mid := Core();
      if goes {
        ForStarts(was, rest, rest.symtbl, expr, Core());
      }
      var x;
      x, d := Trav2(expr, "", SVAL);
      FollowsOn(was, mid, Core());
      times := Times(d);
      if goes {
        ForIsRounds(was, rest, rest.symtbl, expr, Core(), Rest());
      }
    }

    /** How often a FOR goes round: 0 for a number that is not positive, -1 when
        there is none. */
    method Times(t: string) returns (n: int)
      requires Ready()
      modifies this`regs, this`saveOper, this`lineErr, this`errnum, this`diags
      ensures Ready() && Core() == old(Core()) && n >= -1
      ensures var e := EvalExpr(t, old(regs), old(saveOper));
              e.0.Fine? ==>
                n == (if e.1 > 0 then e.1 else 0) && Rest() == old(Rest()).(regs := e.2.regs, saveOper := e.2.save)
      ensures errnum >= old(errnum)
    {
      hide WellFormed, EvalExpr, Reported, LocOf;
      var status, result := EvalText(t);
      if status.BadExpr? || status.DivZero? {
        Err(if status.DivZero? then DivisionByZero else BadExpression);
        return -1;
      }
      if status.Overflow? {
        Err(ArithmeticOverflow);
      }
      n := if result <= 0 then 0 else result;
    }

    /** The last label before a FOR names its counter, the others its line. */
    method TakeGroup() returns (group: seq<string>)
      requires Ready()
      modifies this`refs, this`counters, this`symtbl
      ensures Ready() && depth == old(depth) && Follows(old(Core()), Core()) && symtbl == []
      ensures group == Last(old(symtbl)) && Rest() == old(Rest()).(symtbl := [])
      ensures Core() == old(Core()).(refs := old(refs) + Labelled(Others(old(symtbl)), line))
    {
      hide WellFormed, Follows, Reported, LocOf;
      ghost var was := Core();
      FollowsSelf(was);
      group := [];
      if symtbl != [] {
        group := [symtbl[|symtbl| - 1]];
        if |symtbl| > 1 {
          var r := Ref(symtbl[..|symtbl| - 1], Label(line), false);
          var k := PushRef(r);
          RefKeeps(was, was, Core(), r);
        }
        symtbl := [];
      }
    }

    /** The rounds of a FOR, its counter live: it counts from 1 to `limit`, unless
        the text is given up before. */
    method Unroll(group: seq<string>, limit: nat) returns (d: string, ghost rounds: nat)
      requires Ready() && depth >= 1
      modifies this
      ensures Ready() && depth == old(depth) && Follows(old(Core()), Core())
      ensures rounds <= limit && (rounds < limit && old(aline).Some? ==> !vcont)
      ensures |old(refs)| < |refs| && refs[|old(refs)|] == Ref([], Counter(if rounds == 0 then 1 else rounds), true)
      ensures var q := AllRounds(Counting(old(Core()), group), old(Rest()), |old(refs)|, limit);
                q.Some? ==> GoesTo(old(Core()), old(Rest()), Dropped(q.value, |old(refs)|), Core(), Rest())
      decreases MAX_DEPTH - depth, 2, 5
      ensures errnum >= old(errnum)
    {
      hide WellFormed, Follows, Along, GoesTo, AllRounds, ProgressOf, Registers, Dropped;
      ghost var was, rest := Core(), Rest();
      var me := PushRef(Ref(group, Counter(1), true));
      ghost var start := Core();
      ghost var goal := AllRounds(start, rest, me, limit);
      d, rounds := Rounds(start, rest, me, limit);
      UnrollKeeps(was, start, CountedTo(start, me, if rounds == 0 then 1 else rounds), Core(),
          Ref(group, Counter(1), true), if rounds == 0 then 1 else rounds);
      if goal.Some? {
        UnrollGoes(was, rest, start, Core(), Rest(), me);
      }
      PopCounter();
    }

    method Rounds(ghost start: Mem, ghost rest: Extra, me: nat, limit: nat) returns (d: string, ghost rounds: nat)
      requires Ready() && depth >= 1 && start == Core() && rest == Rest() && me < |refs| && refs[me].kind == Counter(1)
      modifies this
      ensures Ready() && depth == old(depth) && Follows(CountedTo(start, me, if rounds == 0 then 1 else rounds), Core())
      ensures rounds <= limit && (rounds < limit && old(aline).Some? ==> !vcont)
      ensures var goal := AllRounds(start, rest, me, limit);
              goal.Some? ==>
                && Along(start, rest, Core(), Rest())
                && aline.Some? && goal == Some(ProgressOf(Core(), Rest()))
      decreases MAX_DEPTH - depth, 2, 4
      ensures errnum >= old(errnum)
    {
      hide WellFormed, Follows, RoundsDone, RoundDone, Along, GoesTo, Reported, LocOf, AllRounds, Registers;
      d := "";
      var cline := aline;
      ghost var goal := AllRounds(start, rest, me, limit);
      ghost var mark := start;
      FollowsSelf(mark);
      AlongSelf(start, rest);
      assert CountedTo(start, me, 1) == start;
      if goal.Some? {
        FirstRound(me, limit);
      }
      rounds := 0;
      var n := 1;
      while vcont && n <= limit && aline.Some?
        invariant Ready() && depth == old(depth) && n == rounds + 1 && rounds <= limit
        invariant errnum >= old(errnum)
        invariant mark == CountedTo(start, me, if rounds == 0 then 1 else rounds) && Follows(mark, Core())
        invariant aline.Some? <==> cline.Some?
        invariant goal.Some? ==>
                    cline.Some? && Along(start, rest, Core(), Rest())
                        && RoundsLeft(me, cline.value.1 + 1, n, limit) == goal
        decreases limit + 1 - n
      {
        d := NextRound(start, rest, mark, goal, me, n, limit, cline);
        mark := CountedTo(start, me, n);
        CounterStays(mark, Core(), me);
        n := n + 1;
        rounds := rounds + 1;
      }
      if goal.Some? {
        RoundsOver(me, cline.value.1 + 1, n, limit);
      }
    }

    method NextRound(ghost start: Mem, ghost rest: Extra, ghost mark: Mem, ghost goal: Option<Progress>, me: nat,
                     n: nat, ghost limit: nat,
                     cline: Option<(nat, nat)>)
      returns (d: string)
      requires Ready() && depth >= 1 && WellFormed(start) && Follows(mark, Core()) && cline == start.aline
      requires aline.Some? && n <= limit
      requires me < |start.refs| == |mark.refs| && start.refs[me].kind.Counter? && mark.refs[me].kind.Counter?
      requires mark == CountedTo(start, me, mark.refs[me].kind.v)
      requires goal.Some? ==>
                 cline.Some? && Along(start, rest, Core(), Rest())
                     && RoundsLeft(me, cline.value.1 + 1, n, limit) == goal
      modifies this
      ensures Ready() && depth == old(depth) && Follows(CountedTo(start, me, n), Core())
      ensures goal.Some? ==>
                Along(start, rest, Core(), Rest()) && RoundsLeft(me, cline.value.1 + 1, n + 1, limit) == goal
      decreases MAX_DEPTH - depth, 2, 3
      ensures errnum >= old(errnum)
    {
      hide WellFormed, Follows, RoundsDone, RoundDone, Along, GoesTo, Reported, LocOf;
      CounterStays(mark, Core(), me);
      if goal.Some? {
        RoundCounted(me, cline.value.1 + 1, n, limit);
      }
      ghost var here, hereRest := Core(), Rest();
      d := CountRound(start, mark, me, n, cline);
      if goal.Some? {
        RoundAlong(start, rest, here, hereRest, Core(), Rest());
      }
    }

    /** Round `n` is next. */
    lemma RoundCounted(me: nat, from: nat, n: nat, limit: nat)
      requires Ready() && n <= limit
      ensures RoundsLeft(me, from, n, limit).Some? ==>
                && Inside() && me < |refs| && from <= aline.value.1 + 1
                && var q := RoundDone(lists[aline.value.0], MAX_DEPTH - depth, Here().CountedTo(me, n).(at := from));
                   && q.Some? && |q.value.out| <= MAX_LINES && q.value.s.refs[me].kind.Counter? && q.value.at >= from
                   && RoundsDone(lists[aline.value.0], MAX_DEPTH - depth, q.value, me, from, n + 1,
                      limit) == RoundsLeft(me, from, n, limit)
    {
      hide RoundDone;
    }

    lemma FirstRound(me: nat, limit: nat)
      requires Ready() && AllRounds(Core(), Rest(), me, limit).Some?
      ensures aline.Some? && RoundsLeft(me, aline.value.1 + 1, 1, limit) == AllRounds(Core(), Rest(), me, limit)
    {
      hide RoundsDone;
    }

    /** No round is left. */
    lemma RoundsOver(me: nat, from: nat, n: nat, limit: nat)
      requires Ready() && RoundsLeft(me, from, n, limit).Some?
      ensures vcont && aline.Some? && (n > limit ==> RoundsLeft(me, from, n, limit) == Some(Here()))
    {
    }

    /** Round `n` of a FOR: back to its first line, its counter at `n`. */
    method CountRound(ghost start: Mem, ghost mark: Mem, me: nat, n: nat, cline: Option<(nat, nat)>) returns (d: string)
      requires Ready() && depth >= 1 && WellFormed(start) && Follows(mark, Core()) && cline == start.aline
      requires me < |start.refs| == |mark.refs| && start.refs[me].kind.Counter? && mark.refs[me].kind.Counter?
      requires mark == CountedTo(start, me, mark.refs[me].kind.v)
      requires me < |refs| && aline.Some? && cline.Some? && cline.value.0 == aline.value.0
      modifies this
      ensures Ready() && depth == old(depth) && Follows(CountedTo(start, me, n), Core())
      ensures old(Inside()) ==>
                var q := RoundDone(old(lists)[old(aline).value.0], MAX_DEPTH - old(depth),
                    old(Here()).CountedTo(me, n).(at := cline.value.1 + 1));
                q.Some? && |q.value.out| <= MAX_LINES ==> GoesTo(old(Core()), old(Rest()), q.value, Core(), Rest())
      decreases MAX_DEPTH - depth, 2, 2
      ensures errnum >= old(errnum)
    {
      hide WellFormed, Follows, RoundDone, GoesTo, Reported, LocOf;
      ghost var now := CountedTo(start, me, n);
      ghost var was, rest := Core(), Rest();
      Restart(start, mark, me, n, cline);
      d := Round(now);
      RestartGoes(was, rest, me, n, cline, Core(), Rest());
      LimitLines(now);
    }

    /** Give the text up when too much is written. */
    method LimitLines(ghost mark: Mem)
      requires Ready() && Follows(mark, Core())
      modifies this`vcont, this`lineErr, this`errnum, this`diags
      ensures Ready() && Follows(mark, Core())
      ensures if |out| <= MAX_LINES then Core() == old(Core()) && Rest() == old(Rest())
              else
                && Core() == old(Core()).(vcont := false)
                && Rest() == Reported(old(Rest()), ProgramTooLong, LocOf(old(Core())))
      ensures errnum >= old(errnum)
    {
      hide WellFormed, Follows, LocOf, Reported;
      if |out| > MAX_LINES {
        Err(ProgramTooLong);
        ghost var last := Core();
        vcont := false;
        Settle(mark, last, Core());
      }
    }

    method Restart(ghost start: Mem, ghost mark: Mem, me: nat, n: nat, cline: Option<(nat, nat)>)
      requires Ready() && WellFormed(start) && Follows(mark, Core()) && cline == start.aline
      requires me < |start.refs| == |mark.refs| && start.refs[me].kind.Counter? && mark.refs[me].kind.Counter?
      requires mark == CountedTo(start, me, mark.refs[me].kind.v)
      requires me < |refs| && aline.Some? && cline.Some? && cline.value.0 == aline.value.0
      modifies this`refs, this`aline
      ensures Ready() && Follows(CountedTo(start, me, n), Core())
      ensures Core() == CountedTo(old(Core()), me, n).(aline := cline)
      ensures old(Inside()) ==>
                Inside() && lists[aline.value.0] == old(lists)[old(aline).value.0]
                    && Here() == old(Here()).CountedTo(me, n).(at := cline.value.1 + 1)
    {
      hide WellFormed, Follows, Reported, LocOf;
      RestartKeeps(start, mark, Core(), me, n);
      refs := refs[me := refs[me].(kind := Counter(n))];
      aline := cline;
    }

    /** One round of a FOR: lines up to its ROF. */
    method Round(ghost mark: Mem) returns (d: string)
      requires Ready() && depth >= 1 && Follows(mark, Core())
      modifies this
      ensures Ready() && depth == old(depth) && Follows(mark, Core())
      ensures old(RoundLeft()).Some? ==> GoesTo(old(Core()), old(Rest()), old(RoundLeft()).value, Core(), Rest())
      decreases MAX_DEPTH - depth, 2, 1
      ensures errnum >= old(errnum)
    {
      hide WellFormed, Follows, RoundDone, Along, GoesTo, Registers;
      ghost var was, rest, goal := Core(), Rest(), RoundLeft();
      AlongSelf(was, rest);
      d := "";
      var done := false;
      while vcont && !done
        invariant Ready() && depth == old(depth) && Follows(mark, Core())
        invariant errnum >= old(errnum)
        invariant goal.Some? ==> if done then GoesTo(was, rest, goal.value, Core(), Rest())
                                 else Along(was, rest, Core(), Rest()) && RoundLeft() == goal
        decreases if vcont && !done then 1 else 0, MAX_EXPANSION + 1 - expanded
      {
        Allowance(Core());
        done, d := NextOfRound(mark, was, rest, goal);
      }
    }

    /** The next line of a round that comes to `goal`. */
    method NextOfRound(ghost mark: Mem, ghost was: Mem, ghost rest: Extra, ghost goal: Option<Progress>)
      returns (done: bool, d: string)
      requires Ready() && depth >= 1 && Follows(mark, Core()) && vcont
      requires goal.Some? ==> Along(was, rest, Core(), Rest()) && RoundLeft() == goal
      modifies this
      ensures Ready() && depth == old(depth) && Follows(mark, Core()) && (vcont && !done ==> expanded > old(expanded))
      ensures goal.Some? ==> if done then GoesTo(was, rest, goal.value, Core(), Rest())
                             else Along(was, rest, Core(), Rest()) && RoundLeft() == goal
      decreases MAX_DEPTH - depth, 2, 0, 1
      ensures errnum >= old(errnum)
    {
      hide WellFormed, Follows, RoundDone, LineDone, LineStart, Along, GoesTo, Registers;
      ghost var here, hereRest, fuel := Core(), Rest(), MAX_DEPTH - depth;
      if goal.Some? {
        RoundGoesOn();
      }
      done, d := RoundLine(mark);
      if goal.Some? {
        RoundGoes(was, rest, here, hereRest, Core(), Rest());
        RoundAlong(was, rest, here, hereRest, Core(), Rest());
      }
    }

    /** A round goes on with its ROF or another line. */
    lemma RoundGoesOn()
      requires Ready() && RoundLeft().Some?
      ensures Inside()
      ensures var lines, p := lists[aline.value.0], Here();
              && p.at < |lines| && p.expanded < MAX_EXPANSION
              && if Ends(p, lines, MAX_DEPTH - depth) then
                   RoundLeft() == Some(p.(at := p.at + 1, expanded := p.expanded + 1))
                 else
                   var q := LineDone(lines, MAX_DEPTH - depth, p.(expanded := p.expanded + 1));
                   q.Some? && q.value.open && RoundDone(lines, MAX_DEPTH - depth, q.value) == RoundLeft()
    {
      hide LineDone, LineStart;
    }

    /** One line of a round; true at its ROF. */
    method RoundLine(ghost mark: Mem) returns (done: bool, d: string)
      requires Ready() && depth >= 1 && Follows(mark, Core()) && vcont
      modifies this
      ensures Ready() && depth == old(depth) && Follows(mark, Core()) && (vcont && !done ==> expanded > old(expanded))
      ensures old(RoundLeft()).Some? ==>
                var lines, p := old(lists)[old(aline).value.0], old(Here());
                if Ends(p, lines, MAX_DEPTH - old(depth)) then
                  done && GoesTo(old(Core()), old(Rest()), p.(at := p.at + 1, expanded := p.expanded + 1), Core(),
                      Rest())
                else
                  var q := LineDone(lines, MAX_DEPTH - old(depth), p.(expanded := p.expanded + 1));
                  q.Some? ==> !done && GoesTo(old(Core()), old(Rest()), q.value, Core(), Rest())
      decreases MAX_DEPTH - depth, 2, 0, 0
      ensures errnum >= old(errnum)
    {
      hide WellFormed, Follows, LineStart, RoundDone, LineDone, GoesTo, Ends, Registers;
      if RoundLeft().Some? {
        RoundGoesOn();
      }
      if NextLine().None? {
        NoRof(mark);
        return false, "";
      }
      done, d := CountedStep(mark);
    }

    /** The lines end before the round does. */
    method NoRof(ghost mark: Mem)
      requires Ready() && Follows(mark, Core())
      modifies this`vcont, this`lineErr, this`errnum, this`diags
      ensures Ready() && Follows(mark, Core()) && !vcont
      ensures errnum >= old(errnum)
    {
      hide WellFormed, Follows, Registers, Reported, LocOf;
      ghost var start := Core();
      Err(ForWithoutRof);
      vcont := false;
      Settle(mark, start, Core());
    }

    /** A line of a round counted against the allowance, and rewritten. */
    method CountedStep(ghost mark: Mem) returns (done: bool, d: string)
      requires Ready() && depth >= 1 && Follows(mark, Core()) && vcont && NextLine().Some?
      modifies this
      ensures Ready() && depth == old(depth) && Follows(mark, Core()) && (vcont && !done ==> expanded > old(expanded))
      ensures old(Inside()) && old(expanded) < MAX_EXPANSION ==>
                var lines, p := old(lists)[old(aline).value.0], old(Here());
                if Ends(p, lines, MAX_DEPTH - old(depth)) then
                  done && GoesTo(old(Core()), old(Rest()), p.(at := p.at + 1, expanded := p.expanded + 1), Core(),
                      Rest())
                else
                  var q := LineDone(lines, MAX_DEPTH - old(depth), p.(expanded := p.expanded + 1));
                  q.Some? && q.value.open ==> !done && GoesTo(old(Core()), old(Rest()), q.value, Core(), Rest())
      decreases MAX_DEPTH - depth, 1, 2
      ensures errnum >= old(errnum)
    {
      hide WellFormed, Follows, LineStart, LineDone, GoesTo, Reported, LocOf, Registers;
      ghost var start, rest := Core(), Rest();
      var more := ExpandOne();
      FollowsOn(mark, start, Core());
      if !more {
        return false, "";
      }
      SameLine(start, Core());
      ghost var mid := Core();
      done, d := RoundStep();
      FollowsOn(mark, mid, Core());
      Spent(mid, Core());
      SpentGoes(start, rest, Core(), Rest());
    }

    /** The next line of a round, rewritten; true at its ROF. */
    method RoundStep() returns (done: bool, d: string)
      requires Ready() && depth >= 1 && vcont && NextLine().Some?
      modifies this
      ensures Ready() && depth == old(depth) && Follows(old(Core()), Core())
      ensures old(Inside()) ==>
                var lines, p := old(lists)[old(aline).value.0], old(Here());
                if Ends(p, lines, MAX_DEPTH - old(depth)) then
                  done && GoesTo(old(Core()), old(Rest()), p.(at := p.at + 1), Core(), Rest())
                else
                  var q := LineDone(lines, MAX_DEPTH - old(depth), p);
                  q.Some? && q.value.open ==> !done && GoesTo(old(Core()), old(Rest()), q.value, Core(), Rest())
      decreases MAX_DEPTH - depth, 1, 1
      ensures errnum >= old(errnum)
    {
      hide WellFormed, Follows, Operands, LineStart, LineDone, Starts, GoesTo, Reported, LocOf;
      ghost var start, rest, inside := Core(), Rest(), Inside();
      DepthFits(start);
      ghost var fuel := MAX_DEPTH - depth;
      var w;
      w, d := Advance();
      ghost var after, afterRest := Core(), Rest();
      done := false;
      if w == SROF {
        done := true;
      } else if w == SCOM {
        AddLine(d);
      }
      if inside {
        LineGoes(start, rest, fuel, w, d, after, afterRest, Core(), Rest());
      }
    }

    /** Pass 1 over the whole text. */
    method Expand()
      requires Ready() && !halted && expanded <= MAX_EXPANSION && lists != [] && depth < MAX_DEPTH
      modifies this
      ensures Ready() && depth == old(depth) && Expanded(old(Core()), old(Rest()), Core(), Rest())
      ensures errnum >= old(errnum)
    {
      hide WellFormed, Follows, TextDone, LineDone, Expanding, Expanded, Reported, LocOf;
      ghost var lines, before, rest := lists[0], Core(), Rest().(statefine := 0);
      StartKeeps(before);
      vcont := true;
      statefine := 0;
      aline := if lists[0] == [] then None else Some((0, 0));
      ghost var mark := Core();
      ExpandStarts(mark, rest, lines);
      ExpandLines(mark, rest, lines);
      ExpandEnds(before, mark, old(Rest()), lines, Core(), Rest());
    }

    method ExpandLines(ghost mark: Mem, ghost rest: Extra, ghost lines: seq<Line>)
      requires Ready() && depth < MAX_DEPTH && Expanding(mark, rest, lines, Core(), Rest())
      modifies this
      ensures Ready() && depth == old(depth) && Expanding(mark, rest, lines, Core(), Rest()) && (aline.None? || !vcont)
      ensures errnum >= old(errnum)
    {
      hide WellFormed, Expanding, Reported, LocOf;
      while aline.Some? && vcont
        invariant Ready() && depth == old(depth) && Expanding(mark, rest, lines, Core(), Rest())
        invariant errnum >= old(errnum)
        decreases if vcont then 1 else 0, |lines| - Reached(aline, lines)
      {
        ExpandLine(mark, rest, lines);
      }
    }

    method ExpandLine(ghost mark: Mem, ghost rest: Extra, ghost lines: seq<Line>)
      requires Ready() && aline.Some? && vcont && depth < MAX_DEPTH
      requires Expanding(mark, rest, lines, Core(), Rest())
      modifies this
      ensures Ready() && depth == old(depth) && Expanding(mark, rest, lines, Core(), Rest())
      ensures Reached(aline, lines) > Reached(old(aline), lines)
      ensures errnum >= old(errnum)
    {
      hide WellFormed, Follows, Expanding, LineStart, Passed, WritesLine, Tracks, Registers;
      ghost var here, was := Core(), Rest();
      OnFirstList(mark, rest, here, was, lines);
      RewriteLine();
      ghost var after := Core();
      TracksOn(mark, here, after, lines);
      NextTracks(mark, after, lines);
      aline := NextLine();
      LineExpanded(mark, rest, lines, here, was, after, Rest(), Core());
    }

    /** The current line, rewritten and kept if it is an instruction. */
    method RewriteLine()
      requires Ready() && aline.Some? && aline.value.0 < |lists| && aline.value.1 < |lists[aline.value.0]|
      modifies this
      ensures Ready() && depth == old(depth) && Follows(old(Core()), Core())
      ensures old(statefine) == 0 && old(symtbl) == [] ==>
                var o := LineStart(old(Names()), [], MAX_DEPTH - old(depth),
                    old(lists[aline.value.0][aline.value.1].text), "");
                o.Some? ==> WritesLine(o.value, old(Core()), old(Rest()), Core(), Rest())
      ensures old(statefine) > 0 ==>
                var n := Passed(MAX_DEPTH - old(depth), old(lists[aline.value.0][aline.value.1].text), old(statefine));
                n.Some? ==> Core() == old(Core()) && Rest() == old(Rest()).(statefine := n.value)
      ensures errnum >= old(errnum)
    {
      hide WellFormed, Follows, LineStart, Passed, Continued, LocOf, ForDone, Reported;
      var w, d := Trav2(lists[aline.value.0][aline.value.1].text, "", SNIL);
      if w == SCOM {
        AddLine(d);
      } else if w == SROF {
        Err(RofWithoutFor);
      }
    }

    // ---- pass 2: the line automaton ----

    method Automaton(expr: string, at: Where)
      requires Ready()
      modifies this
      ensures Ready() && depth == old(depth) && Follows(old(Core()), Core())
      ensures Scanned(ScanOn(old(Names()), MAX_DEPTH - old(depth), expr, at, old(parts)), old(Core()), old(Rest()),
                Core(), Rest())
      decreases MAX_DEPTH - depth, 0, 1
      ensures errnum >= old(errnum)
    {
      hide WellFormed, Follows, ScanOn, Reported, LocOf, Registers;
      DepthFits(Core());
      if depth >= MAX_DEPTH {
        NoFuelToScan(Names(), expr, at, parts);
        Halt(NestingTooDeep);
        return;
      }
      DeeperScan(expr, at);
    }

    /** One level deeper. */
    method DeeperScan(expr: string, at: Where)
      requires Ready() && depth < MAX_DEPTH
      modifies this
      ensures Ready() && depth == old(depth) && Follows(old(Core()), Core())
      ensures Scanned(ScanOn(old(Names()), MAX_DEPTH - old(depth), expr, at, old(parts)), old(Core()), old(Rest()),
                Core(), Rest())
      decreases MAX_DEPTH - depth, 0, 0
      ensures errnum >= old(errnum)
    {
      hide WellFormed, Follows, ScanOn, Registers;
      ghost var was := Core();
      DeeperKeeps(was);
      depth := depth + 1;
      AutomatonStep(expr, at);
      BackKeeps(was, was.(depth := was.depth + 1), Core());
      depth := depth - 1;
    }

    method AutomatonStep(expr: string, at: Where)
      requires Ready() && depth >= 1
      modifies this
      ensures Ready() && depth == old(depth) && Follows(old(Core()), Core())
      ensures Scanned(ScanOn(old(Names()), MAX_DEPTH + 1 - old(depth), expr, at, old(parts)), old(Core()),
                old(Rest()), Core(), Rest())
      decreases MAX_DEPTH - depth, 4
      ensures errnum >= old(errnum)
    {
      hide WellFormed, Follows, ScanOpcode, ScanModifier, ScanField, ScanOperand, Reported, LocOf, Registers;
      parts := parts.(last := at);
      if at.AtOp? {
        OpState(expr);
      } else if at.AtModf? {
        ModifierState(expr);
      } else if at.AtExpFs? || at.AtExpr? {
        ExpressionState(expr, at);
      } else {
        OperandState(expr, at);
      }
    }

    method OpState(expr: string)
      requires Ready() && depth >= 1 && parts.last.AtOp?
      modifies this
      ensures Ready() && depth == old(depth) && Follows(old(Core()), Core())
      ensures Scanned(ScanOpcode(old(Names()), MAX_DEPTH - old(depth), expr, old(parts)), old(Core()), old(Rest()),
                Core(), Rest())
      decreases MAX_DEPTH - depth, 3
      ensures errnum >= old(errnum)
    {
      hide WellFormed, Follows, OpIndex, ScanOn, GetToken, Upper, Registers;
      FollowsSelf(Core());
      var (tok, rest) := GetToken(expr);
      var p := parts.(filled := false);
      if !tok.kind.Char? {
        Refuse(p, ExpectedOpcode);
        return;
      }
      p := p.(opcode := OpIndex(Upper(tok.text)));
      if p.opcode < EQUOP {
        GoOn(rest, if p.opcode < OPNUM then AtModAddrExp else AtExpr, p);
      } else {
        Refuse(p, ExpectedOpcode);
      }
    }

    /** The automaton goes on with these parts. */
    method GoOn(rest: string, at: Where, p: Parts)
      requires Ready() && depth >= 1
      modifies this
      ensures Ready() && depth == old(depth) && Follows(old(Core()), Core())
      ensures Scanned(ScanOn(old(Names()), MAX_DEPTH - old(depth), rest, at, p), old(Core()), old(Rest()), Core(),
                Rest())
      decreases MAX_DEPTH - depth, 1
      ensures errnum >= old(errnum)
    {
      hide WellFormed, Follows, ScanOn, Registers;
      parts := p;
      Automaton(rest, at);
    }

    /** It stops with these parts and an error. */
    method Refuse(p: Parts, e: Problem)
      requires Ready()
      modifies this`parts, this`lineErr, this`errnum, this`diags
      ensures Ready() && Follows(old(Core()), Core()) && Core() == old(Core())
      ensures errnum >= old(errnum)
    {
      hide WellFormed, Follows, Reported, LocOf, Registers;
      FollowsSelf(Core());
      parts := p;
      Err(e);
    }

    method ModifierState(expr: string)
      requires Ready() && depth >= 1 && parts.last.AtModf?
      modifies this
      ensures Ready() && depth == old(depth) && Follows(old(Core()), Core())
      ensures Scanned(ScanModifier(old(Names()), MAX_DEPTH - old(depth), expr, old(parts)), old(Core()), old(Rest()),
                Core(), Rest())
      decreases MAX_DEPTH - depth, 3
      ensures errnum >= old(errnum)
    {
      hide WellFormed, Follows, Position, ScanOn, GetToken, Upper, Reported, LocOf, Registers;
      FollowsSelf(Core());
      var (tok, rest) := GetToken(expr);
      var p := parts.(filled := false);
      if tok.kind.Char? {
        var m := Position(MODNAME, Upper(tok.text));
        if m < 7 {
          GoOn(rest, AtAddrExpA, p.(modifier := Some(m)));
        } else {
          Refuse(p, ExpectedOpcode);
        }
      } else if tok.kind.End? {
        parts := p;
      } else {
        Refuse(p, ExpectedOpcode);
      }
    }

    /** At the start of an operand. */
    method OperandState(expr: string, at: Where)
      requires Ready() && depth >= 1 && parts.last == at && (at.AtModAddrExp? || at.AtAddrExpA? || at.AtAddrExpB?)
      modifies this
      ensures Ready() && depth == old(depth) && Follows(old(Core()), Core())
      ensures Scanned(ScanOperand(old(Names()), MAX_DEPTH - old(depth), expr, at, old(parts)), old(Core()),
                old(Rest()), Core(), Rest())
      decreases MAX_DEPTH - depth, 3
      ensures errnum >= old(errnum)
    {
      hide WellFormed, Follows, ScanOn, ScanSymbol, GetToken, WithMode, Reported, LocOf, Registers;
      FollowsSelf(Core());
      var (tok, rest) := GetToken(expr);
      var p := parts.(filled := false);
      var next := if at.AtAddrExpB? then AtExpr else AtExpFs;
      if tok.kind.Modf? && at.AtModAddrExp? {
        GoOn(rest, AtModf, p);
      } else if tok.kind.Addr? {
        GoOn(rest, next, WithMode(p, at, tok.text[0]));
      } else if tok.kind.Numb? || tok.kind.Expr? {
        GoOn(expr, next, p);
      } else if tok.kind.Char? {
        parts := p;
        CharRef(expr, rest, tok.text, at, next);
      } else if tok.kind.End? {
        parts := p;
      } else {
        Refuse(p, if at.AtModAddrExp? then NotAllowedHere else ExpectedOpcode);
      }
    }

    /** Inside a field expression. */
    method ExpressionState(expr: string, at: Where)
      requires Ready() && depth >= 1 && parts.last == at && (at.AtExpFs? || at.AtExpr?)
      modifies this
      ensures Ready() && depth == old(depth) && Follows(old(Core()), Core())
      ensures Scanned(ScanField(old(Names()), MAX_DEPTH - old(depth), expr, at, old(parts)), old(Core()), old(Rest()),
                Core(), Rest())
      decreases MAX_DEPTH - depth, 3
      ensures errnum >= old(errnum)
    {
      hide WellFormed, Follows, ScanOn, ScanWord, GetToken, Collect, Concat, Reported, LocOf, Registers;
      FollowsSelf(Core());
      var (tok, rest) := GetToken(expr);
      if tok.kind.Fsep? && at.AtExpFs? {
        Automaton(rest, AtAddrExpB);
      } else if tok.kind.Addr? && tok.text[0] !in "><*" {
        Err(NotAllowedHere);
      } else if tok.kind.Addr? || tok.kind.Numb? || tok.kind.Expr? {
        Gather(tok, rest, at);
      } else if tok.kind.Char? {
        CharExpr(rest, tok.text, at.AtExpr?);
      } else if !tok.kind.End? {
        Err(NotAllowedHere);
      }
    }

    /** A piece of the field expression; numbers are set apart by a blank. */
    method Gather(tok: Token, rest: string, at: Where)
      requires Ready() && depth >= 1 && (at.AtExpFs? || at.AtExpr?)
      modifies this
      ensures Ready() && depth == old(depth) && Follows(old(Core()), Core())
      ensures var piece := if tok.kind.Numb? then Concat(tok.text, " ") else Some(tok.text);
              var c := if piece.Some? then Collect(old(parts), at, piece.value) else None;
              c.Some? ==> Scanned(ScanOn(old(Names()), MAX_DEPTH - old(depth), rest, at, c.value), old(Core()),
                  old(Rest()), Core(), Rest())
      decreases MAX_DEPTH - depth, 2
      ensures errnum >= old(errnum)
    {
      hide WellFormed, Follows, ScanOn, Collect, Concat, Reported, LocOf, Registers;
      var piece := tok.text;
      if tok.kind.Numb? {
        var e := Concat(piece, " ");
        if e.None? {
          Refuse(parts, LineTooLong);
        } else {
          piece := e.value;
        }
      }
      var c := Collect(parts, at, piece);
      if c.None? {
        Refuse(parts.(filled := true), LineTooLong);
      }
      GoOn(rest, at, if c.None? then parts else c.value);
    }

    /** A word where an operand starts: a symbol's text or number, or a single
        character of the expression. */
    method CharRef(expr: string, rest: string, tok: string, at: Where, single: Where)
      requires Ready() && depth >= 1
      modifies this
      ensures Ready() && depth == old(depth) && Follows(old(Core()), Core())
      ensures Scanned(ScanSymbol(old(Names()), MAX_DEPTH - old(depth), expr, rest, tok, at, single, old(parts)),
                      old(Core()), old(Rest()), Core(), Rest())
      decreases MAX_DEPTH - depth, 2
      ensures errnum >= old(errnum)
    {
      hide WellFormed, Follows, ScanOn, Reported, LocOf, Registers;
      FollowsSelf(Core());
      var found := Lookup(refs, tok);
      if found.Some? {
        var k := found.value;
        if refs[k].visit {
          Err(RecursiveEqu);
        } else {
          var text := TextOf(k, true);
          ghost var was := Core();
          Substitute(k, text, at);
          ghost var mid := Core();
          Automaton(rest, parts.last);
          FollowsOn(was, mid, Core());
        }
      } else if |tok| == 1 {
        Automaton(expr, single);
      } else {
        Err(UnknownSymbol);
      }
    }

    /** A word inside an expression. */
    method CharExpr(rest: string, tok: string, bSide: bool)
      requires Ready() && depth >= 1
      modifies this
      ensures Ready() && depth == old(depth) && Follows(old(Core()), Core())
      ensures Scanned(ScanWord(old(Names()), MAX_DEPTH - old(depth), rest, tok, if bSide then AtExpr else AtExpFs,
                old(parts)),
                      old(Core()), old(Rest()), Core(), Rest())
      decreases MAX_DEPTH - depth, 2
      ensures errnum >= old(errnum)
    {
      hide WellFormed, Follows, ScanOn, Reported, LocOf, Registers;
      FollowsSelf(Core());
      var at := if bSide then AtExpr else AtExpFs;
      var found := Lookup(refs, tok);
      if found.Some? {
        var k := found.value;
        if refs[k].visit {
          Err(RecursiveEqu);
        } else {
          var text := TextOf(k, !bSide || parts.opcode < OPNUM);
          ghost var was := Core();
          Substitute(k, text, at);
          ghost var mid := Core();
          Automaton(rest, if bSide then AtExpr else parts.last);
          FollowsOn(was, mid, Core());
        }
      } else if |tok| == 1 {
        var e := Concat(if bSide then parts.bExpr else parts.aExpr, tok);
        if e.None? {
          Err(LineTooLong);
        } else {
          GoOn(rest, at, if bSide then parts.(bExpr := e.value, filled := true)
              else parts.(aExpr := e.value, filled := true));
        }
      } else {
        Err(UnknownSymbol);
      }
    }

    /** What a symbol stands for: the first line of an EQU, or a number, relative
        to the current instruction or not. */
    function TextOf(k: nat, relative: bool): (t: string)
      requires Ready() && k < |refs|
      reads this
      ensures t == SymbolText(Names(), k, relative)
    {
      match refs[k].kind
      case EquText(list) => lists[list][0].text
      case Label(v) => if relative then ShowInt(v - line) else ShowNat(v)
      case Counter(v) => if relative then ShowInt(v - line) else ShowNat(v)
    }

    /** Run over a symbol's text with the symbol marked, so that it cannot call
        on itself. */
    method Substitute(k: nat, text: string, at: Where)
      requires Ready() && depth >= 1 && k < |refs| && !refs[k].visit
      modifies this
      ensures Ready() && depth == old(depth) && Follows(old(Core()), Core())
      ensures Scanned(Substituted(old(Names()), MAX_DEPTH - old(depth), k, text, at, old(parts)), old(Core()),
                old(Rest()), Core(), Rest())
      decreases MAX_DEPTH - depth, 1
      ensures errnum >= old(errnum)
    {
      hide WellFormed, Follows, ScanOn, Reported, LocOf, Registers;
      ghost var was := Core();
      MarkKeeps(was, k);
      refs := refs[k := refs[k].(visit := true)];
      ghost var mark := Core();
      Automaton(text, at);
      UnmarkKeeps(was, mark, Core(), k);
      refs := refs[k := refs[k].(visit := false)];
      assert was.refs[k := was.refs[k].(visit := true)][k := was.refs[k]] == was.refs;
    }

    /** One rewritten line into opcode, modifier, modes and expressions. */
    method Dfashell(text: string)
      requires Ready()
      modifies this
      ensures Ready() && depth == old(depth) && Follows(old(Core()), Core())
      ensures var blank := old(parts).(aMode := Direct, bMode := Direct, modifier := None, aExpr := "", bExpr := "");
              var z := ScanOn(old(Names()), MAX_DEPTH - old(depth), text, AtOp, blank);
              z.Some? && Fillable(z.value) ==>
                Core() == old(Core()) && Rest() == old(Rest()).(parts := Filled(z.value), lineErr := false)
      ensures errnum >= old(errnum)
    {
      hide WellFormed, Follows, ScanOn, Reported, LocOf;
      parts := parts.(aMode := Direct, bMode := Direct, modifier := None, aExpr := "", bExpr := "");
      lineErr := false;
      Automaton(text, AtOp);
      if parts.opcode < OPNUM {
        if !parts.filled && !lineErr {
          Err(MissingOperand);
        } else if parts.bExpr == "" {
          if parts.opcode == 12 {
            parts := parts.(bMode := parts.aMode, bExpr := parts.aExpr, aMode := Immediate, aExpr := "0");
          } else if parts.opcode == 11 || parts.opcode == 13 || parts.opcode == 16 {
            parts := parts.(bMode := Direct, bExpr := "0");
          } else {
            Err(NeedsTwoOperands);
          }
        }
      }
    }

    /** One line of the program, assembled; none for ORG, END, PIN and for lines
        with errors. */
    method EncodeLine(text: string) returns (r: Option<Instruction>)
      requires Ready() && cfg.coreSize >= 1
      modifies this
      ensures Ready() && depth == old(depth) && Follows(old(Core()), Core())
      ensures r.Some? ==> Normalised(cfg.coreSize, r.value)
      ensures var q := LineCoded(cfg.coreSize, old(Names()), MAX_DEPTH - old(depth), text, old(Coded()));
              q.Some? && old(errnum) == 0 ==>
                r == q.value.0 && Coded() == q.value.1 && errnum == 0 && Core() == old(Core())
      ensures errnum >= old(errnum)
      ensures Fruitless(old(Names()), MAX_DEPTH - old(depth), text, old(Coded())) ==> errnum > 0
    {
      hide WellFormed, Follows, PartsOf, PseudoCoded, FieldsCoded, Unvalued, Reported, LocOf;
      ReadParts(text);
      if errnum != 0 {
        return None;
      }
      if parts.opcode == ORGOP || parts.opcode == ENDOP || parts.opcode == PINOP {
        EncodePseudo();
        r := None;
      } else {
        r := EncodeFields();
      }
    }

    /** The parts of a line; without errors, an expression that is not there is
        zero. */
    method ReadParts(text: string)
      requires Ready()
      modifies this
      ensures Ready() && depth == old(depth) && Follows(old(Core()), Core())
      ensures var z := PartsOf(old(Names()), MAX_DEPTH - old(depth), text);
              z.Some? && old(errnum) == 0 ==>
                Core() == old(Core()) && Rest() == old(Rest()).(parts := z.value, lineErr := false)
      ensures errnum >= old(errnum)
    {
      hide WellFormed, Follows, ScanOn, Reported, LocOf, Registers, Filled, Fillable;
      DepthFits(Core());
      BlankIsUnread(Names(), MAX_DEPTH - depth, text,
          parts.(aMode := Direct, bMode := Direct, modifier := None, aExpr := "", bExpr := ""));
      Dfashell(text);
      if errnum != 0 {
        return;
      }
      if parts.aExpr == "" {
        parts := parts.(aExpr := "0");
      }
      if parts.bExpr == "" {
        parts := parts.(bExpr := "0");
      }
    }

    method ErrNoValue(status: Status)
      requires Ready()
      modifies this`lineErr, this`errnum, this`diags
      ensures Ready() && Core() == old(Core()) && errnum == old(errnum) + 1
    {
      hide WellFormed, LocOf;
      Err(if status.DivZero? then DivisionByZero else BadExpression);
    }

    method EncodePseudo()
      requires Ready() && cfg.coreSize >= 1 && errnum == 0
      modifies this`regs, this`saveOper, this`offset, this`pin, this`lineErr, this`errnum, this`diags
      ensures Ready() && Core() == old(Core())
      ensures var q := PseudoCoded(cfg.coreSize, parts, old(Coded())); q.Some? ==> Coded() == q.value && errnum == 0
      ensures parts.opcode >= OPNUM && Unvalued(parts, old(Coded())) ==> errnum > 0
    {
      hide WellFormed, EvalExpr, LocOf, Reported;
      var status, v := EvalText(parts.bExpr);
      if status.BadExpr? || status.DivZero? {
        ErrNoValue(status);
        return;
      }
      if status.Overflow? {
        WarningCounts(Rest(), ArithmeticOverflow, LocOf(Core()));
        Err(ArithmeticOverflow);
      }
      if parts.opcode == ORGOP {
        offset := v % cfg.coreSize;
      } else if parts.opcode == PINOP {
        pin := Some(v);
      } else if v != 0 {
        if offset != 0 {
          WarningCounts(Rest(), EndStartIgnored, LocOf(Core()));
          Err(EndStartIgnored);
        } else {
          offset := v % cfg.coreSize;
        }
      }
    }

    method EncodeFields() returns (r: Option<Instruction>)
      requires Ready() && cfg.coreSize >= 1 && errnum == 0
      modifies this`regs, this`saveOper, this`lineErr, this`errnum, this`diags, this`line
      ensures Ready() && Core() == old(Core())
      ensures r.Some? ==> Normalised(cfg.coreSize, r.value)
      ensures parts.opcode < OPNUM ==>
                var q := FieldsCoded(cfg.coreSize, parts, old(Coded()));
                q.Some? ==> r == Some(q.value.0) && Coded() == q.value.1 && errnum == 0
      ensures parts.opcode < OPNUM && Unvalued(parts, old(Coded())) ==> errnum > 0
    {
      hide WellFormed, EvalExpr, OpcodeOf, ModifierOf, DefaultModifier, Registers;
      // A line whose word is no opcode or modifier has been reported before.
      if parts.opcode >= OPNUM || (parts.modifier.Some? && parts.modifier.value >= 7) {
        return None;
      }
      var v := EvalFields();
      if v.None? {
        return None;
      }
      var op := OpcodeOf(parts.opcode);
      var modifier := if parts.modifier.Some? then ModifierOf(parts.modifier.value)
          else DefaultModifier(op, parts.aMode, parts.bMode);
      r := Some(Instruction(op, modifier, parts.aMode, v.value.0 % cfg.coreSize, parts.bMode,
          v.value.1 % cfg.coreSize));
      line := line + 1;
    }

    /** Both expressions, in order. */
    method EvalFields() returns (r: Option<(int, int)>)
      requires Ready() && errnum == 0
      modifies this`regs, this`saveOper, this`lineErr, this`errnum, this`diags
      ensures Ready() && Core() == old(Core())
      ensures var a := EvalExpr(parts.aExpr, old(regs), old(saveOper));
              var b := EvalExpr(parts.bExpr, a.2.regs, a.2.save);
              if Evaluates(a.0) && Evaluates(b.0) then
                r == Some((a.1, b.1)) && (regs, saveOper, errnum) == (b.2.regs, b.2.save, 0)
              else r.None? && errnum > 0
      ensures errnum >= old(errnum)
    {
      hide WellFormed, EvalExpr, LocOf, Reported;
      var sa, va := EvalText(parts.aExpr);
      if sa.BadExpr? || sa.DivZero? {
        ErrNoValue(sa);
        return None;
      }
      var sb, vb := EvalText(parts.bExpr);
      if sb.BadExpr? || sb.DivZero? {
        ErrNoValue(sb);
        return None;
      }
      if sa.Overflow? || sb.Overflow? {
        WarningCounts(Rest(), ArithmeticOverflow, LocOf(Core()));
        Err(ArithmeticOverflow);
      }
      r := Some((va, vb));
    }

    /** Pass 1, and what it leaves to warn about. */
    method PassOne()
      requires Ready() && !halted && expanded <= MAX_EXPANSION && lists != [] && depth < MAX_DEPTH
      modifies this
      ensures Ready() && depth == old(depth)
      ensures var p := Whole(Opened(old(Core())), old(Rest()).(line := 0, statefine := 0), old(lists)[0]);
              p.Some? && old(symtbl) == [] ==>
                && Scope(lists, refs, line) == p.value.s && out == p.value.out && errnum == old(errnum)
                && (regs, saveOper, offset, pin) == (p.value.regs, p.value.save, old(offset), old(pin))
      ensures errnum >= old(errnum)
      ensures Denied(Opened(old(Core())), old(Rest()).(line := 0, statefine := 0), old(lists)[0])
              && old(symtbl) == [] ==>
                errnum > 0
    {
      hide WellFormed, Whole, Opened, LocOf;
      line := 0;
      Expand();
      if symtbl != [] {
        symtbl := [];
        ErrAt(LabelsDropped, 0);
      }
      if noassert {
        ErrAt(MissingAssert, 0);
      }
    }

    /** Pass 2 over the lines pass 1 wrote. */
    method Encode() returns (code: seq<Instruction>)
      requires Ready() && cfg.coreSize >= 1
      modifies this
      ensures Ready() && depth == old(depth)
      ensures NormalisedCode(cfg.coreSize, code)
      ensures var q := old(LeftToCode());
              1 <= old(line) <= MAXINSTR && old(line) <= cfg.maxLength && old(errnum) == 0 && q.Some? ==>
                code == q.value.0 && (offset, pin, errnum) == (q.value.1.offset, q.value.1.pin, 0)
      ensures old(line) == 0 ==> code == [] && (offset, pin, errnum) == old((offset, pin, errnum))
      ensures errnum >= old(errnum)
      ensures old(line) > cfg.maxLength || (old(line) > 0 && old(Hopeless())) ==> errnum > 0
    {
      hide WellFormed, Follows, LinesCoded, LeadsNowhere, FruitlessAt, Registers, LocOf;
      code := [];
      var count := line;
      if count > MAXINSTR {
        ErrAt(ProgramTooLong, 0);
        return;
      }
      if count > cfg.maxLength {
        ErrAt(TooManyInstructions, 0);
      }
      if count == 0 {
        ErrAt(NoInstructions, 0);
        return;
      }
      line := 0;
      code := EncodeLines();
      if offset < 0 || offset >= count {
        ErrAt(StartOutside, 0);
      }
    }

    /** What the lines of pass 1 come to. */
    ghost function LeftToCode(): Option<(seq<Instruction>, Coding)>
      requires Ready() && cfg.coreSize >= 1
      reads this
    {
      AddedListKeeps(Core(), out);
      LinesCoded(cfg.coreSize, Scope(lists + [out], refs, 0), MAX_DEPTH - depth, out, |out|, Coded().(line := 0))
    }

    /** Whether an expression there has no value, fine lines before it. */
    ghost predicate Hopeless()
      requires Ready() && cfg.coreSize >= 1
      reads this
    {
      AddedListKeeps(Core(), out);
      LeadsNowhere(cfg.coreSize, Scope(lists + [out], refs, 0), MAX_DEPTH - depth, out, Coded().(line := 0))
    }

    method EncodeLines() returns (code: seq<Instruction>)
      requires Ready() && cfg.coreSize >= 1 && line == 0
      modifies this
      ensures Ready() && depth == old(depth)
      ensures NormalisedCode(cfg.coreSize, code)
      ensures var q := old(LeftToCode());
              old(errnum) == 0 && q.Some? ==> code == q.value.0 && Coded() == q.value.1 && errnum == 0
      ensures errnum >= old(errnum) && (old(Hopeless()) ==> errnum > 0)
    {
      hide WellFormed, Follows, LineCoded, LinesCoded, LeadsNowhere, FruitlessAt, Fruitless, Reported, LocOf;
      code := [];
      var lines := out;
      DepthFits(Core());
      AddedListKeeps(Core(), lines);
      ghost var s, c, fuel: nat := Scope(lists + [lines], refs, 0), Coded(), MAX_DEPTH - depth;
      assert LeftToCode() == LinesCoded(cfg.coreSize, s, fuel, lines, |lines|, c);
      assert Hopeless() == LeadsNowhere(cfg.coreSize, s, fuel, lines, c);
      ghost var end := LastCoded(cfg.coreSize, s, fuel, lines, c);
      ghost var goal := LinesCoded(cfg.coreSize, s, fuel, lines, end, c).Some? && errnum == 0;
      out := [];
      lists := lists + [lines];
      var list := |lists| - 1;
      NothingIsCoded(cfg.coreSize, s, fuel, lines, c);
      for k := 0 to |lines|
        invariant Ready() && depth == old(depth) && list < |lists| && lists[list] == lines
        invariant errnum >= old(errnum)
        invariant NormalisedCode(cfg.coreSize, code)
        invariant goal && k <= end ==>
                    && errnum == 0 && lists == s.lists && refs == s.refs
                    && LinesCoded(cfg.coreSize, s, fuel, lines, k, c) == Some((code, Coded()))
        invariant goal && k > end ==> errnum > 0
      {
        if goal && k < end {
          CodedOn(cfg.coreSize, s, fuel, lines, k, end, c);
        } else if goal && k == end {
          FruitlessAnyway(s, line, fuel, lines[k].text, Coded());
        }
        var r := EncodeAt(list, k);
        if r.Some? {
          code := code + [r.value];
        }
      }
    }

    /** Line `k` of a list, assembled as the current line. */
    method EncodeAt(list: nat, k: nat) returns (r: Option<Instruction>)
      requires Ready() && cfg.coreSize >= 1 && list < |lists| && k < |lists[list]|
      modifies this
      ensures Ready() && depth == old(depth) && list < |lists| && lists[list] == old(lists[list])
      ensures r.Some? ==> Normalised(cfg.coreSize, r.value)
      ensures var q := LineCoded(cfg.coreSize, old(Names()), MAX_DEPTH - old(depth), old(lists[list][k].text),
                old(Coded()));
              q.Some? && old(errnum) == 0 ==>
                r == q.value.0 && Coded() == q.value.1 && errnum == 0 && lists == old(lists) && refs == old(refs)
      ensures errnum >= old(errnum)
      ensures Fruitless(old(Names()), MAX_DEPTH - old(depth), old(lists[list][k].text), old(Coded())) ==> errnum > 0
    {
      hide WellFormed, Follows, LineCoded, Fruitless, Registers;
      GoTo(Core(), list, k);
      aline := Some((list, k));
      ghost var before := Core();
      r := EncodeLine(lists[list][k].text);
      ListStays(before, Core(), list, before.lists[list]);
    }

    /** The constants every source may use. */
    method AddPredefs()
      requires Ready() && aline.None? && cfg.coreSize >= 1 && |lists| == 1 && refs == []
      modifies this`lists, this`refs, this`counters
      ensures Ready() && counters == old(counters)
      ensures lists == old(lists) + PredefLists(cfg, 9) && refs == PredefRefs(cfg, 9)
    {
      hide WellFormed, Registers, Constants, PredefLists, PredefRefs, ShowNat;
      NoPredefsYet(cfg);
      for n := 0 to 9
        invariant Ready() && counters == old(counters)
        invariant lists == old(lists) + PredefLists(cfg, n) && refs == PredefRefs(cfg, n)
      {
        ghost var was := Core();
        PredefNext(cfg, n);
        var (name, value) := Constants(cfg)[n];
        lists := lists + [[Line(ShowNat(value), 0)]];
        AddedListKeeps(was, [Line(ShowNat(value), 0)]);
        var k := PushRef(Ref([name], EquText(|lists| - 1), false));
      }
    }

    /** The first warrior finds their number in registers W and S. */
    method SetWarriors()
      requires Ready() && cfg.warriors <= 0xFFFF_FFFF
      modifies this`regs
      ensures Ready() && regs == old(regs)[22 := cfg.warriors][18 := cfg.warriors]
    {
      regs := regs[22 := cfg.warriors][18 := cfg.warriors];
    }

    /** All of it, on a new assembler: the constants, the text read, pass 1 and
        pass 2. */
    method Process(src: string) returns (code: seq<Instruction>)
      requires Ready() && IsNew(Core(), Rest()) && cfg.coreSize >= 1 && cfg.warriors <= 0xFFFF_FFFF
      requires cfg.maxLength <= MAXINSTR
      modifies this
      ensures Ready()
      ensures NormalisedCode(cfg.coreSize, code)
      ensures ProgramOf(cfg, SourceLines(src)).Some? ==>
                errnum == 0 && (code, offset, pin) == ProgramOf(cfg, SourceLines(src)).value
      ensures Rejects(cfg, SourceLines(src)) ==> errnum > 0
    {
      hide WellFormed, Registers, SourceLines, TextDone, LinesCoded, Whole, Opened, Started, StartRegisters;
      hide PredefLists, PredefRefs;
      Prepare(src);
      StartIs(cfg, Core(), Rest(), lists[0]);
      PassOne();
      code := Encode();
    }

    /** The constants and the text. */
    method Prepare(src: string)
      requires Ready() && IsNew(Core(), Rest()) && cfg.coreSize >= 1 && cfg.warriors <= 0xFFFF_FFFF
      modifies this
      ensures Ready() && lists == [SourceLines(src)] + PredefLists(cfg, 9)
      ensures Core() == old(Core()).(lists := lists, refs := PredefRefs(cfg, 9))
      ensures Rest() == old(Rest()).(regs := StartRegisters(cfg))
      ensures errnum >= old(errnum)
    {
      hide WellFormed, LinesFrom, FirstFree, PredefLists, PredefRefs;
      AddPredefs();
      if cfg.firstWarrior {
        SetWarriors();
      }
      PredefsFree(cfg);
      Read(src);
    }

    // ---- reading ----

    /** The lines of the source between `;redcode` comments. */
    method Read(data: string)
      requires Ready() && lists != [] && aline.None? && FirstFree(refs)
      modifies this`lists
      ensures Ready() && |lists| == |old(lists)| && lists[1..] == old(lists)[1..]
      ensures lists[0] == LinesFrom(data, 0, old(lists)[0], false)
    {
      hide WellFormed, LineRead, LineTaken, LinesFrom;
      var pos: nat := 0;
      var lines: nat := 0;
      var started := false;
      var cont := true;
      assert data[0..] == data;
      while cont
        invariant Ready() && lists != [] && |lists| == |old(lists)| && lists[1..] == old(lists)[1..] && pos <= |data|
        invariant cont ==> LinesFrom(data[pos..], lines, lists[0], started) == LinesFrom(data, 0, old(lists)[0], false)
        invariant !cont ==> lists[0] == LinesFrom(data, 0, old(lists)[0], false)
        decreases |data| - pos, cont
      {
        LinesFromStep(data[pos..], lines, lists[0], started);
        var buf;
        buf, pos, cont := ReadLine(data, pos);
        lines := lines + 1;
        started, cont := TakeLine(buf, lines, started, cont);
      }
    }

    /** A line read: kept without its comment, or a switch. */
    method TakeLine(buf: string, loc: nat, started: bool, more: bool) returns (now: bool, cont: bool)
      requires Ready() && lists != [] && aline.None? && FirstFree(refs)
      modifies this`lists
      ensures Ready() && |lists| == |old(lists)| && lists[1..] == old(lists)[1..]
      ensures var (kept, on, ended) := LineTaken(buf, loc, old(lists)[0], started);
              lists[0] == kept && now == on && cont == (more && !ended)
    {
      hide WellFormed, GetToken, Uncommented, Reported, LocOf;
      now, cont := started, more;
      var (tok, rest) := GetToken(buf);
      if tok.kind.Comm? {
        var switch := GlobalSwitch(buf, rest, loc);
        if switch {
          if started {
            cont := false;
          } else {
            FirstList(Core(), []);
            lists := lists[0 := []];
            now := true;
          }
        }
      } else if !tok.kind.End? {
        FirstList(Core(), lists[0] + [Line(Uncommented(buf), loc)]);
        lists := lists[0 := lists[0] + [Line(Uncommented(buf), loc)]];
      }
    }

    /** True for `;redcode`; an assertion is kept as a line. */
    method GlobalSwitch(text: string, rest: string, loc: nat) returns (switch: bool)
      requires Ready() && lists != [] && aline.None? && FirstFree(refs)
      modifies this`lists
      ensures Ready() && |lists| == |old(lists)| && lists[1..] == old(lists)[1..]
      ensures switch == Frames(rest)
      ensures lists[0] == if !switch && Asserted(text, rest).Some? then
                            old(lists)[0] + [Line(Asserted(text, rest).value, loc)]
                          else old(lists)[0]
    {
      hide WellFormed, GetToken, Reported, LocOf, Uncommented;
      var (tok, rest2) := GetToken(rest);
      var up := Upper(tok.text);
      if up == "REDCODE" && |rest| - |rest2| == 7 {
        return true;
      }
      var tail := Skip(rest2);
      if up == "ASSERT" && |tail| <= |text| {
        var kept := text[..|text| - |tail|] + Uncommented(tail);
        FirstList(Core(), lists[0] + [Line(kept, loc)]);
        lists := lists[0 := lists[0] + [Line(kept, loc)]];
      }
      switch := false;
    }
  }

  // ---- what the parts of a state have to do with each other ----

  lemma FollowsSelf(m: Mem)
    ensures Follows(m, m)
  {
  }

  lemma Settle(s: Mem, t: Mem, u: Mem)
    requires WellFormed(t) && Follows(s, t) && (u == t || u == t.(vcont := false))
    ensures WellFormed(u) && Follows(s, u)
  {
  }

  lemma LocStays(s: Mem, t: Mem)
    requires t.lists == s.lists && t.aline == s.aline
    ensures LocOf(t) == LocOf(s)
  {
  }

  lemma HaltKeeps(s: Mem, t: Mem)
    requires WellFormed(s.(vcont := false)) && (t == s.(vcont := false) || t == s.(vcont := false, halted := true))
    ensures WellFormed(t) && Follows(s, t)
  {
  }

  lemma CountKeeps(m: Mem)
    requires WellFormed(m) && m.vcont
    ensures var t := m.(expanded := m.expanded + 1);
            && Follows(m, t) && !m.halted && WellFormed(t.(vcont := false))
               && (t.expanded <= MAX_EXPANSION ==> WellFormed(t))
  {
  }

  lemma DepthFits(m: Mem)
    requires WellFormed(m)
    ensures m.depth <= MAX_DEPTH && WellFormed(m.(vcont := false))
  {
  }

  lemma DeeperKeeps(m: Mem)
    requires WellFormed(m) && m.depth < MAX_DEPTH
    ensures WellFormed(m.(depth := m.depth + 1))
  {
  }

  /** Nor on the labels waiting, unless it is a ROF. */
  lemma LabelsAside(dest: string, s: Mem, x: Extra, labelled: Extra, w: int, d: string, t: Mem, y: Extra)
    ensures forall o ::
              && Starts(o, dest, s, labelled, w, d, t, y) && !o.Closes? && !o.Asserts?
              && x == labelled.(symtbl := x.symtbl)
              ==> Starts(o, dest, s, x, w, d, t, y)
  {
    hide ForDone;
  }

  /** What a line is does not depend on how deep it is rewritten. */
  lemma StartsBack(dest: string, was: Mem, x: Extra, w: int, d: string, m: Mem, y: Extra)
    requires m.depth == was.depth + 1
    ensures forall o :: Starts(o, dest, was.(depth := was.depth + 1), x, w, d, m, y) ==>
              Starts(o, dest, was, x, w, d, m.(depth := was.depth), y)
  {
    hide ForDone;
  }

  lemma PlainlyBack(wdecl: int, was: Mem, x: Extra, w: int, d: string, m: Mem, y: Extra)
    requires m.depth == was.depth + 1
    ensures forall z :: Rewrites(z, wdecl, was.(depth := was.depth + 1), x, w, d, m, y) ==>
              Rewrites(z, wdecl, was, x, w, d, m.(depth := was.depth), y)
    ensures forall n :: Passes(n, wdecl, was.(depth := was.depth + 1), x, w, m, y) ==>
              Passes(n, wdecl, was, x, w, m.(depth := was.depth), y)
  {
  }

  lemma BackKeeps(was: Mem, inside: Mem, m: Mem)
    requires WellFormed(m) && inside == was.(depth := was.depth + 1) && Follows(inside, m)
    ensures m.depth >= 1 && WellFormed(m.(depth := m.depth - 1)) && Follows(was, m.(depth := m.depth - 1))
  {
  }

  lemma RefKeeps(was: Mem, mid: Mem, m: Mem, r: Ref)
    requires Follows(was, mid) && !r.kind.Counter? && m == mid.(refs := mid.refs + [r])
    ensures Follows(was, m)
  {
  }

  /** The current line `n` lines on. */
  function Further(aline: Option<(nat, nat)>, n: nat): Option<(nat, nat)> {
    if aline.None? then None else Some((aline.value.0, aline.value.1 + n))
  }

  /** The EQU lines right after the current line, the word EQU taken off. */
  function Continued(m: Mem): seq<Line> {
    if OnLine(m) then EquLines(m.lists[m.aline.value.0][m.aline.value.1 + 1..]) else []
  }

  lemma TakeFirst(all: seq<Line>, body: seq<Line>, left: seq<Line>)
    requires all == body + left && left != []
    ensures all == body + [left[0]] + left[1..]
  {
    assert left == [left[0]] + left[1..];
  }

  lemma ContinuedStep(m: Mem)
    requires WellFormed(m)
    ensures m.aline.None? || m.aline.value.1 + 1 >= |m.lists[m.aline.value.0]| ==> Continued(m) == []
    ensures m.aline.Some? && m.aline.value.1 + 1 < |m.lists[m.aline.value.0]| ==>
              var next := m.(aline := Further(m.aline, 1));
              var line := m.lists[m.aline.value.0][m.aline.value.1 + 1];
              var (tok, rest) := GetToken(line.text);
              && WellFormed(next)
              && Continued(m) == if Upper(tok.text) == "EQU" then [Line(rest, line.loc)] + Continued(next) else []
  {
    hide GetToken, Upper;
    if m.aline.Some? && m.aline.value.1 + 1 < |m.lists[m.aline.value.0]| {
      var lines := m.lists[m.aline.value.0];
      var k := m.aline.value.1 + 1;
      assert lines[k..][0] == lines[k] && lines[k..][1..] == lines[k + 1..];
    }
  }

  lemma BodyKeeps(was: Mem, m: Mem, body: seq<Line>)
    requires WellFormed(m) && body != [] && m == was.(aline := Further(was.aline, |body| - 1))
    ensures WellFormed(m.(lists := m.lists + [body]))
    ensures forall r: Ref :: !r.kind.Counter? ==> Follows(was, m.(lists := m.lists + [body], refs := m.refs + [r]))
  {
  }

  lemma EquList(m: Mem, ri: nat)
    requires WellFormed(m) && ri < |m.refs| && m.refs[ri].kind.EquText?
    ensures m.refs[ri].kind.list < |m.lists| && m.lists[m.refs[ri].kind.list] != []
  {
  }

  lemma VisitKeeps(m: Mem, ri: nat)
    requires WellFormed(m) && ri < |m.refs| && m.refs[ri].kind.EquText?
    ensures var list := m.refs[ri].kind.list;
            && list < |m.lists| && m.lists[list] != []
            && WellFormed(m.(refs := m.refs[ri := m.refs[ri].(visit := true)], aline := Some((list, 0))))
  {
  }

  lemma UnvisitKeeps(was: Mem, mark: Mem, m: Mem, ri: nat)
    requires WellFormed(was) && WellFormed(m) && ri < |was.refs| && was.refs[ri].kind.EquText? && !was.refs[ri].visit
    requires mark == was.(refs := was.refs[ri := was.refs[ri].(visit := true)],
               aline := Some((was.refs[ri].kind.list, 0)))
    requires Follows(mark, m)
    ensures ri < |m.refs|
    ensures var n := m.(aline := was.aline, refs := m.refs[ri := m.refs[ri].(visit := false)]);
            WellFormed(n) && Follows(was, n)
  {
  }

  /** What was rewritten with the symbol marked is rewritten without. */
  lemma UnvisitRewrites(was: Mem, x: Extra, wdecl: int, ri: nat, w: int, d: string, m: Mem, y: Extra)
    requires ri < |was.refs| && was.refs[ri].kind.EquText? && !was.refs[ri].visit && ri < |m.refs|
    ensures var mark := was.(refs := was.refs[ri := was.refs[ri].(visit := true)],
                aline := Some((was.refs[ri].kind.list, 0)));
            forall z :: Rewrites(z, wdecl, mark, x, w, d, m, y) ==>
              Rewrites(z, wdecl, was, x, w, d,
                       m.(aline := was.aline, refs := m.refs[ri := m.refs[ri].(visit := false)]), y)
  {
    assert was.refs[ri := was.refs[ri].(visit := true)][ri := was.refs[ri]] == was.refs;
  }

  // ---- what a line is rewritten to ----

  /** Operands are rewritten as `z` says, and nothing else changes. */
  predicate Rewrites(z: Option<string>, wdecl: int, s: Mem, x: Extra, w: int, d: string, t: Mem, y: Extra) {
    z.Some? ==> w == wdecl && d == z.value && t == s && y == x
  }

  /** A line is passed over: nothing changes but how many FORs are open. */
  predicate Passes(n: Option<nat>, wdecl: int, s: Mem, x: Extra, w: int, t: Mem, y: Extra) {
    n.Some? ==> w in {wdecl, SNIL, SERR} && t == s && y == x.(statefine := n.value)
  }

  /** An assertion: one that has no value is warned about, one that is zero is an
      error. */
  function Judged(x: Extra, status: Status, v: int, loc: nat): Extra {
    if status.BadExpr? || status.DivZero? then Reported(x, BadAssert, loc)
    else
      var y := (if status.Overflow? then Reported(x, ArithmeticOverflow, loc) else x).(noassert := false);
      if v == 0 then Reported(y, AssertionFailed, loc) else y
  }

  function Checked(x: Extra, expr: string, loc: nat): Extra
    requires St(x.regs, x.saveOper, Fine).Valid()
  {
    var e := EvalExpr(expr, x.regs, x.saveOper);
    Judged(x.(regs := e.2.regs, saveOper := e.2.save), e.0, e.1, loc)
  }

  /** A false assertion is an error, so that the source is refused; one without a
      value only a warning; a true one is neither. */
  lemma AssertionReads(x: Extra, expr: string, loc: nat)
    requires St(x.regs, x.saveOper, Fine).Valid()
    ensures var (status, v, st) := EvalExpr(expr, x.regs, x.saveOper);
            var y := Checked(x, expr, loc);
            && y.regs == st.regs
            && (status == Fine && v != 0 ==> y.errnum == x.errnum && y.diags == x.diags && !y.noassert)
            && (status == Fine && v == 0 ==> y.errnum == x.errnum + 1 && y.diags == x.diags + [(AssertionFailed, loc)])
            && (status == Overflow ==> y.errnum == x.errnum + if v == 0 then 1 else 0)
            && (status in {BadExpr, DivZero} ==>
                  y.errnum == x.errnum && y.diags == x.diags + [(BadAssert, loc)] && y.noassert == x.noassert)
  {
    hide EvalExpr;
  }

  /** A line is what `o` says: an instruction is counted, its labels name its
      number and END ends the text; an EQU becomes a symbol for its lines. */
  predicate Starts(o: Opening, dest: string, s: Mem, x: Extra, w: int, d: string, t: Mem, y: Extra) {
    match o
    case Opens(labels, op, text) =>
      && w == SCOM && d == text
      && t == s.(refs := s.refs + Labelled(labels, x.line), vcont := s.vcont && op != ENDOP)
      && y == x.(symtbl := [], line := x.line + if op < OPNUM then 1 else 0)
    case Defines(labels, expr) =>
      && w == SVAL && d == dest
      && t == s.(lists := s.lists + [[Line(expr, LocOf(s))] + Continued(s)], aline := Further(s.aline, |Continued(s)|),
                 refs := s.refs + [Ref(labels, EquText(|s.lists|), false)])
      && y == x.(symtbl := [])
    case Repeats(labels, expr, fuel) =>
      s.vcont && OnLine(s) && ProgressOf(s, x).Valid() ==>
        var q := ForDone(s.lists[s.aline.value.0], fuel, ProgressOf(s, x), labels, expr);
        q.Some? ==> w == SFOR && GoesTo(s, x, q.value, t, y)
    case Asserts(expr) =>
      w == SNIL && t == s && (St(x.regs, x.saveOper, Fine).Valid() ==> y == Checked(x, expr, LocOf(s)))
    case Closes => w == SROF && d == dest && t == s && y == x
  }

  /** How far pass 1 is, the current line done. */
  function ProgressOf(m: Mem, x: Extra): Progress
    requires m.aline.Some?
  {
    Progress(Scope(m.lists, m.refs, x.line), x.out, m.aline.value.1 + 1, m.vcont, x.statefine, m.expanded, x.regs,
             x.saveOper, x.noassert)
  }

  /** Pass 1 has got to `q` in the same list of lines, and nothing else changes. */
  predicate GoesTo(s: Mem, x: Extra, q: Progress, t: Mem, y: Extra) {
    && s.aline.Some? && q.at >= 1
    && t == s.(lists := q.s.lists, refs := q.s.refs, expanded := q.expanded, aline := Some((s.aline.value.0, q.at - 1)))
    && y == x.(symtbl := [], statefine := q.passing, out := q.out, line := q.s.line, regs := q.regs, saveOper := q.save,
               noassert := q.unchecked)
  }

  /** A FOR counter pushed, at 1. */
  function Counting(m: Mem, group: seq<string>): Mem {
    m.(refs := m.refs + [Ref(group, Counter(1), true)], counters := m.counters + [|m.refs|])
  }

  /** What all rounds of a FOR with counter `me` come to. */
  function AllRounds(m: Mem, x: Extra, me: nat, limit: nat): (r: Option<Progress>)
    ensures r.Some? ==> me < |r.value.s.refs|
  {
    if Along(m, x, m, x) && OnLine(m) && m.depth <= MAX_DEPTH && ProgressOf(m, x).Valid() && me < |m.refs|
        && m.refs[me].kind.Counter? then
      RoundsDone(m.lists[m.aline.value.0], MAX_DEPTH - m.depth, ProgressOf(m, x), me, m.aline.value.1 + 1, 1, limit)
    else None
  }

  /** Symbols added, the labels waiting taken, registers set. */
  predicate Headed(s: Mem, x: Extra, t: Mem, y: Extra) {
    t == s.(refs := t.refs) && y == x.(symtbl := [], regs := y.regs, saveOper := y.saveOper)
  }

  lemma HeadGoes(s: Mem, x: Extra, m: Mem, z: Extra, t: Mem, y: Extra)
    ensures forall q: Progress :: Headed(s, x, m, z) && GoesTo(m, z, q, t, y) ==> GoesTo(s, x, q, t, y)
  {
  }

  lemma HeadPasses(s: Mem, x: Extra, t: Mem, y: Extra)
    ensures s.aline.Some? && s.vcont && Headed(s, x, t, y) ==>
              var z := y.(statefine := y.statefine + 1); GoesTo(s, x, ProgressOf(t, z), t, z)
  {
  }

  lemma ForStarts(m: Mem, x: Extra, labels: seq<string>, expr: string, c: Mem)
    requires OnLine(m) && m.depth <= MAX_DEPTH && ProgressOf(m, x).Valid()
    requires c == m.(refs := m.refs + Labelled(Others(labels), x.line)) && Scope(c.lists, c.refs, x.line).Valid()
    requires ForDone(m.lists[m.aline.value.0], MAX_DEPTH - m.depth, ProgressOf(m, x), labels, expr).Some?
    ensures var z := Operands(Scope(c.lists, c.refs, x.line), false, MAX_DEPTH - m.depth, expr, "");
            z.Some? && EvalExpr(z.value, x.regs, x.saveOper).0.Fine?
  {
    hide Operands, EvalExpr, RoundsDone;
  }

  /** A FOR is its rounds, once its labels and its expression are done. */
  lemma ForIsRounds(m: Mem, x: Extra, labels: seq<string>, expr: string, c: Mem, y: Extra)
    requires OnLine(m) && m.vcont && m.depth <= MAX_DEPTH && ProgressOf(m, x).Valid()
    requires c == m.(refs := m.refs + Labelled(Others(labels), x.line)) && Scope(c.lists, c.refs, x.line).Valid()
    requires var z := Operands(Scope(c.lists, c.refs, x.line), false, MAX_DEPTH - m.depth, expr, "");
             z.Some? && var e := EvalExpr(z.value, x.regs, x.saveOper);
                        e.0.Fine? && y == x.(symtbl := [], regs := e.2.regs, saveOper := e.2.save)
    ensures var z := Operands(Scope(c.lists, c.refs, x.line), false, MAX_DEPTH - m.depth, expr, "").value;
            var times := EvalExpr(z, x.regs, x.saveOper).1;
            var q := AllRounds(Counting(c, Last(labels)), y, |c.refs|, times % 0x1_0000);
            ForDone(m.lists[m.aline.value.0], MAX_DEPTH - m.depth, ProgressOf(m, x), labels, expr)
            == if times <= 0 then Some(ProgressOf(c, y.(statefine := y.statefine + 1)))
               else if q.None? then None
               else Some(Dropped(q.value, |c.refs|))
  {
    hide Operands, EvalExpr, RoundsDone;
  }

  /** The names of symbol `me` gone. */
  function Dropped(q: Progress, me: nat): Progress
    requires me < |q.s.refs|
  {
    q.(s := q.s.(refs := q.s.refs[me := q.s.refs[me].(names := [])]))
  }

  /** Some way on from a state inside a text, without errors. */
  predicate Along(s: Mem, x: Extra, t: Mem, y: Extra) {
    && s.aline.Some? && t.aline.Some? && t.aline.value.0 == s.aline.value.0 && s.lists <= t.lists
    && s.vcont && x.symtbl == []
    && t == s.(lists := t.lists, refs := t.refs, expanded := t.expanded, aline := t.aline)
    && y == x.(statefine := y.statefine, out := y.out, line := y.line, regs := y.regs, saveOper := y.saveOper,
               noassert := y.noassert)
  }

  /** The line is the ROF of the round. */
  predicate Ends(p: Progress, lines: seq<Line>, fuel: nat)
    requires p.Valid() && p.at < |lines|
  {
    p.passing == 0 && LineStart(p.s, [], fuel, lines[p.at].text, "") == Some(Closes)
  }

  /** A line of a round, done: pass 1 has got to where `LineDone` says. */
  lemma LineGoes(m: Mem, x: Extra, fuel: nat, w: int, d: string, after: Mem, afterRest: Extra, t: Mem, y: Extra)
    requires m.aline.Some? && OnLine(m.(aline := Further(m.aline, 1))) && m.vcont && x.symtbl == []
    requires ProgressOf(m, x).Valid()
    requires x.statefine == 0 ==>
               var o := LineStart(Scope(m.lists, m.refs, x.line), [], fuel,
                 m.lists[m.aline.value.0][m.aline.value.1 + 1].text, "");
               o.Some? ==> Starts(o.value, "", m.(aline := Further(m.aline, 1)), x, w, d, after, afterRest)
    requires x.statefine > 0 ==>
               Passes(Passed(fuel, m.lists[m.aline.value.0][m.aline.value.1 + 1].text, x.statefine), SNIL,
                      m.(aline := Further(m.aline, 1)), x, w, after, afterRest)
    requires t == after && y == if w == SCOM then afterRest.(out := afterRest.out + [Line(d, LocOf(after))])
               else afterRest
    ensures var lines, p := m.lists[m.aline.value.0], ProgressOf(m, x);
            if Ends(p, lines, fuel) then
              w == SROF && GoesTo(m, x, p.(at := p.at + 1), t, y)
            else
              var q := LineDone(lines, fuel, p);
              q.Some? && q.value.open ==> w != SROF && GoesTo(m, x, q.value, t, y)
  {
    hide LineStart, ForDone, Passed, Starts, Passes, GoesTo, InstructionDone, EquDone, EquLines;
    var lines, p := m.lists[m.aline.value.0], ProgressOf(m, x);
    if x.statefine == 0 {
      match LineStart(p.s, [], fuel, lines[p.at].text, "")
      case None =>
      case Some(Opens(labels, op, text)) => InstructionGoes(m, x, labels, op, text, w, d, after, afterRest, t, y);
      case Some(Defines(labels, expr)) => EquGoes(m, x, labels, expr, w, d, after, afterRest, t, y);
      case Some(Repeats(labels, expr, left)) => ForGoes(m, x, labels, expr, left, w, d, after, afterRest, t, y);
      case Some(Asserts(expr)) => AssertGoes(m, x, expr, w, d, after, afterRest, t, y);
      case Some(Closes) => RofGoes(m, x, w, d, after, afterRest, t, y);
    } else {
      PassedGoes(m, x, Passed(fuel, lines[p.at].text, x.statefine), w, d, after, afterRest, t, y);
    }
  }

  lemma InstructionGoes(m: Mem, x: Extra, labels: seq<string>, op: nat, text: string, w: int, d: string, after: Mem,
                        afterRest: Extra, t: Mem, y: Extra)
    requires m.aline.Some? && OnLine(m.(aline := Further(m.aline, 1))) && m.vcont && ProgressOf(m, x).Valid()
    requires Starts(Opens(labels, op, text), "", m.(aline := Further(m.aline, 1)), x, w, d, after, afterRest)
    requires t == after && y == if w == SCOM then afterRest.(out := afterRest.out + [Line(d, LocOf(after))])
               else afterRest
    ensures var p := ProgressOf(m, x);
            var l := Line(text, m.lists[m.aline.value.0][p.at].loc);
            w != SROF && (op != ENDOP ==> GoesTo(m, x, InstructionDone(p, labels, op, l), t, y))
  {
  }

  lemma AssertGoes(m: Mem, x: Extra, expr: string, w: int, d: string, after: Mem, afterRest: Extra, t: Mem, y: Extra)
    requires m.aline.Some? && OnLine(m.(aline := Further(m.aline, 1))) && m.vcont && x.symtbl == []
    requires ProgressOf(m, x).Valid()
    requires Starts(Asserts(expr), "", m.(aline := Further(m.aline, 1)), x, w, d, after, afterRest)
    requires t == after && y == if w == SCOM then afterRest.(out := afterRest.out + [Line(d, LocOf(after))])
               else afterRest
    ensures var q := AssertDone(ProgressOf(m, x), expr);
            w != SROF && (q.Some? ==> GoesTo(m, x, q.value, t, y))
  {
    hide EvalExpr, LocOf;
  }

  lemma EquGoes(m: Mem, x: Extra, labels: seq<string>, expr: string, w: int, d: string, after: Mem, afterRest: Extra,
                t: Mem, y: Extra)
    requires m.aline.Some? && OnLine(m.(aline := Further(m.aline, 1))) && m.vcont && ProgressOf(m, x).Valid()
    requires Starts(Defines(labels, expr), "", m.(aline := Further(m.aline, 1)), x, w, d, after, afterRest)
    requires t == after && y == if w == SCOM then afterRest.(out := afterRest.out + [Line(d, LocOf(after))])
               else afterRest
    ensures var p := ProgressOf(m, x);
            var lines := m.lists[m.aline.value.0];
            w != SROF
            && GoesTo(m, x, EquDone(p, labels, [Line(expr, lines[p.at].loc)] + EquLines(lines[p.at + 1..])), t, y)
  {
    hide EquLines;
  }

  lemma ForGoes(m: Mem, x: Extra, labels: seq<string>, expr: string, left: nat, w: int, d: string, after: Mem,
                afterRest: Extra, t: Mem, y: Extra)
    requires m.aline.Some? && OnLine(m.(aline := Further(m.aline, 1))) && m.vcont && ProgressOf(m, x).Valid()
    requires Starts(Repeats(labels, expr, left), "", m.(aline := Further(m.aline, 1)), x, w, d, after, afterRest)
    requires t == after && y == if w == SCOM then afterRest.(out := afterRest.out + [Line(d, LocOf(after))])
               else afterRest
    ensures var p := ProgressOf(m, x);
            var q := ForDone(m.lists[m.aline.value.0], left, p.(at := p.at + 1), labels, expr);
            q.Some? ==> w != SROF && GoesTo(m, x, q.value, t, y)
  {
    hide ForDone;
  }

  lemma RofGoes(m: Mem, x: Extra, w: int, d: string, after: Mem, afterRest: Extra, t: Mem, y: Extra)
    requires m.aline.Some? && OnLine(m.(aline := Further(m.aline, 1))) && m.vcont && x.symtbl == []
    requires Starts(Closes, "", m.(aline := Further(m.aline, 1)), x, w, d, after, afterRest)
    requires t == after && y == if w == SCOM then afterRest.(out := afterRest.out + [Line(d, LocOf(after))])
               else afterRest
    ensures var p := ProgressOf(m, x);
            w == SROF && GoesTo(m, x, p.(at := p.at + 1), t, y)
  {
  }

  lemma PassedGoes(m: Mem, x: Extra, n: Option<nat>, w: int, d: string, after: Mem, afterRest: Extra, t: Mem,
                   y: Extra)
    requires m.aline.Some? && m.vcont && x.symtbl == []
    requires Passes(n, SNIL, m.(aline := Further(m.aline, 1)), x, w, after, afterRest)
    requires t == after && y == if w == SCOM then afterRest.(out := afterRest.out + [Line(d, LocOf(after))])
               else afterRest
    ensures var p := ProgressOf(m, x);
            n.Some? ==> w != SROF && GoesTo(m, x, p.(at := p.at + 1, passing := n.value), t, y)
  {
  }

  lemma MoveKeeps(m: Mem)
    requires WellFormed(m) && m.aline.Some? && m.aline.value.1 + 1 < |m.lists[m.aline.value.0]|
    ensures m.aline.value.0 < |m.lists|
    ensures WellFormed(m.(aline := Some((m.aline.value.0, m.aline.value.1 + 1))))
  {
  }

  lemma MovedOn(was: Mem, moved: Mem, m: Mem)
    requires was.aline.Some? && WellFormed(m) && Follows(moved, m)
    requires WellFormed(was) && was.aline.value.1 + 1 < |was.lists[was.aline.value.0]|
    requires moved == was.(aline := Some((was.aline.value.0, was.aline.value.1 + 1)))
    ensures Follows(was, m) && m.aline.Some? && m.aline.value.0 == was.aline.value.0
    ensures m.aline.value.1 > was.aline.value.1
    ensures m.aline.value.0 < |m.lists| && m.aline.value.1 < |m.lists[m.aline.value.0]|
    ensures m.lists[m.aline.value.0] == was.lists[m.aline.value.0]
  {
  }

  lemma StillThere(s: Mem, t: Mem)
    requires Follows(s, t) && WellFormed(t) && s.aline.Some?
    ensures t.aline.Some? && t.aline.value.0 < |t.lists|
  {
  }

  lemma SameLine(s: Mem, t: Mem)
    requires WellFormed(s) && WellFormed(t) && s.aline.Some? && s.aline.value.1 + 1 < |s.lists[s.aline.value.0]|
    requires t.aline == s.aline && t.lists == s.lists
    ensures t.aline.value.0 < |t.lists| && t.aline.value.1 + 1 < |t.lists[t.aline.value.0]|
  {
  }

  lemma Allowance(m: Mem)
    requires WellFormed(m) && m.vcont
    ensures m.expanded <= MAX_EXPANSION
  {
  }

  lemma Spent(s: Mem, t: Mem)
    requires Follows(s, t) && WellFormed(t)
    ensures t.expanded >= s.expanded && t.expanded <= MAX_EXPANSION + 1
  {
  }

  /** The FOR counter `me` at `n`. */
  function CountedTo(m: Mem, me: nat, n: nat): Mem
    requires me < |m.refs|
  {
    m.(refs := m.refs[me := m.refs[me].(kind := Counter(n))])
  }

  lemma RestartKeeps(start: Mem, mark: Mem, m: Mem, me: nat, n: nat)
    requires WellFormed(m) && Follows(mark, m) && WellFormed(start)
    requires me < |start.refs| == |mark.refs| && start.refs[me].kind.Counter? && mark.refs[me].kind.Counter?
    requires mark == CountedTo(start, me, mark.refs[me].kind.v)
    ensures me < |m.refs|
    ensures var r := m.(refs := m.refs[me := m.refs[me].(kind := Counter(n))], aline := start.aline);
            WellFormed(r) && Follows(CountedTo(start, me, n), r)
  {
  }

  lemma CounterStays(mark: Mem, m: Mem, me: nat)
    requires Follows(mark, m) && me < |mark.refs|
    ensures m.aline.Some? <==> mark.aline.Some?
    ensures m.aline.Some? ==> m.aline.value.0 == mark.aline.value.0 && m.aline.value.1 >= mark.aline.value.1
    ensures me < |m.refs| && m.refs[me] == mark.refs[me]
  {
  }

  lemma RestartGoes(s: Mem, x: Extra, me: nat, n: nat, cline: Option<(nat, nat)>, t: Mem, y: Extra)
    requires me < |s.refs| && s.aline.Some? && cline.Some? && cline.value.0 == s.aline.value.0
    ensures forall q: Progress :: GoesTo(CountedTo(s, me, n).(aline := cline), x, q, t, y) ==>
              GoesTo(s, x, q, t, y) && y.out == q.out
  {
  }

  lemma SpentGoes(s: Mem, x: Extra, t: Mem, y: Extra)
    ensures forall q: Progress :: GoesTo(s.(expanded := s.expanded + 1), x, q, t, y) ==> GoesTo(s, x, q, t, y)
  {
  }

  lemma AlongSelf(s: Mem, x: Extra)
    ensures s.aline.Some? && s.vcont && x.symtbl == [] ==> Along(s, x, s, x)
  {
  }

  lemma RoundAlong(s: Mem, x: Extra, m: Mem, y: Extra, t: Mem, z: Extra)
    requires Along(s, x, m, y)
    ensures forall q: Progress :: GoesTo(m, y, q, t, z) && m.lists <= q.s.lists && q.open ==>
              && Along(s, x, t, z) && t.vcont && z.symtbl == []
              && t.aline.Some? && m.aline.Some? && t.aline.value.0 == m.aline.value.0 && ProgressOf(t, z) == q
                 && t.lists[..|m.lists|] == m.lists
  {
  }

  /** A way on from a state on the way. */
  lemma RoundGoes(s: Mem, x: Extra, m: Mem, y: Extra, t: Mem, z: Extra)
    requires Along(s, x, m, y)
    ensures forall q: Progress :: GoesTo(m, y, q, t, z) ==> GoesTo(s, x, q, t, z)
  {
  }

  lemma UnrollGoes(was: Mem, x: Extra, start: Mem, m: Mem, y: Extra, me: nat)
    requires Along(start, x, m, y) && me < |m.refs| && start == was.(refs := start.refs, counters := start.counters)
    ensures GoesTo(was, x, Dropped(ProgressOf(m, y), me),
              m.(counters := was.counters, refs := m.refs[me := m.refs[me].(names := [])]), y)
  {
  }

  lemma UnrollKeeps(was: Mem, start: Mem, mark: Mem, m: Mem, r: Ref, n: nat)
    requires WellFormed(m) && WellFormed(was) && r.kind.Counter?
    requires start == was.(refs := was.refs + [r], counters := was.counters + [|was.refs|])
    requires mark == CountedTo(start, |was.refs|, n) && Follows(mark, m)
    ensures m.counters == was.counters + [|was.refs|] && |was.refs| < |m.refs|
    ensures m.refs[|was.refs|] == r.(kind := Counter(n))
    ensures Follows(was, m.(counters := was.counters, refs := m.refs[|was.refs| := m.refs[|was.refs|].(names := [])]))
  {
  }

  // ---- the lines of the text ----

  /** What rewriting a line that is `o` leaves. */
  predicate WritesLine(o: Opening, s: Mem, x: Extra, t: Mem, y: Extra) {
    match o
    case Opens(labels, op, text) =>
      && t == s.(refs := s.refs + Labelled(labels, x.line), vcont := s.vcont && op != ENDOP)
      && y == x.(out := x.out + [Line(text, LocOf(t))], line := x.line + if op < OPNUM then 1 else 0)
    case Defines(labels, expr) =>
      && t == s.(lists := s.lists + [[Line(expr, LocOf(s))] + Continued(s)], aline := Further(s.aline, |Continued(s)|),
                 refs := s.refs + [Ref(labels, EquText(|s.lists|), false)])
      && y == x
    case Repeats(labels, expr, fuel) =>
      s.vcont && OnLine(s) && ProgressOf(s, x).Valid() ==>
        var q := ForDone(s.lists[s.aline.value.0], fuel, ProgressOf(s, x), labels, expr);
        q.Some? ==> GoesTo(s, x, q.value, t, y)
    case Asserts(expr) => t == s && (St(x.regs, x.saveOper, Fine).Valid() ==> y == Checked(x, expr, LocOf(s)))
    case Closes => true
  }

  /** The current line, or the end. */
  function Reached(aline: Option<(nat, nat)>, lines: seq<Line>): (r: nat)
    ensures r <= |lines|
  {
    if aline.Some? && aline.value.1 <= |lines| then aline.value.1 else |lines|
  }

  /** Pass 1 is on a line of the first list, or past its end. */
  predicate Tracks(mark: Mem, m: Mem, lines: seq<Line>) {
    && mark.lists != [] && mark.lists[0] == lines && mark.lists <= m.lists
    && m.depth == mark.depth && m.counters == mark.counters && mark.refs <= m.refs
    && (m.aline.Some? ==> m.aline.value.0 == 0 && m.aline.value.1 < |lines|)
  }

  lemma StartKeeps(m: Mem)
    requires WellFormed(m) && !m.halted && m.expanded <= MAX_EXPANSION && m.lists != []
    ensures var t := m.(vcont := true, aline := if m.lists[0] == [] then None else Some((0, 0)));
            WellFormed(t) && Tracks(t, t, m.lists[0])
  {
  }

  /** How far pass 1 is. */
  function At(m: Mem, x: Extra, lines: seq<Line>): Progress {
    Progress(Scope(m.lists, m.refs, x.line), x.out, Reached(m.aline, lines), m.vcont, x.statefine, m.expanded, x.regs,
             x.saveOper, x.noassert)
  }

  /** Where the whole text gets to, nothing where a line of it is neither an
      instruction nor an EQU. */
  function Whole(m: Mem, x: Extra, lines: seq<Line>): Option<Progress>
  {
    var p := At(m, x, lines);
    if p.Valid() && m.depth <= MAX_DEPTH then TextDone(lines, MAX_DEPTH - m.depth, p) else None
  }

  /** Whether a false assertion is ahead. */
  predicate Denied(m: Mem, x: Extra, lines: seq<Line>) {
    var p := At(m, x, lines);
    p.Valid() && m.depth <= MAX_DEPTH && Denies(lines, MAX_DEPTH - m.depth, p)
  }

  /** Nothing has changed but what a line may change. */
  predicate OnlyOn(mark: Mem, rest: Extra, m: Mem, x: Extra) {
    && m == mark.(lists := m.lists, refs := m.refs, vcont := m.vcont, aline := m.aline, expanded := m.expanded)
    && x == rest.(statefine := x.statefine, out := x.out, line := x.line, regs := x.regs, saveOper := x.saveOper,
                  noassert := x.noassert)
  }

  /** How far pass 1 has come from `mark`; on a text it gets to the end of, or to
      a false assertion, on the way there. */
  predicate Expanding(mark: Mem, rest: Extra, lines: seq<Line>, m: Mem, x: Extra) {
    && Tracks(mark, m, lines)
    && (rest.symtbl == [] && Whole(mark, rest, lines).Some? ==>
          Whole(m, x, lines) == Whole(mark, rest, lines) && OnlyOn(mark, rest, m, x))
    && (rest.symtbl == [] && Denied(mark, rest, lines) ==>
          x.errnum > rest.errnum || (Denied(m, x, lines) && OnlyOn(mark, rest, m, x)))
  }

  lemma ExpandStarts(mark: Mem, rest: Extra, lines: seq<Line>)
    requires Tracks(mark, mark, lines)
    ensures Expanding(mark, rest, lines, mark, rest)
  {
  }

  /** What pass 1 does to a text: counters and symbols come back, lists and
      symbols are only added to; a text of instructions and EQUs ends as
      `TextDone` says, and one with a false assertion with an error. */
  predicate Expanded(s: Mem, x: Extra, t: Mem, y: Extra) {
    && t.counters == s.counters && s.lists <= t.lists && s.refs <= t.refs
    && (s.lists != [] && x.symtbl == [] && Whole(Opened(s), x.(statefine := 0), s.lists[0]).Some? ==>
          var p := Whole(Opened(s), x.(statefine := 0), s.lists[0]).value;
          && t == s.(lists := p.s.lists, refs := p.s.refs, vcont := p.open, aline := t.aline, expanded := p.expanded)
          && y == x.(statefine := p.passing, out := p.out, line := p.s.line, regs := p.regs, saveOper := p.save,
                     noassert := p.unchecked))
    && (s.lists != [] && x.symtbl == [] && Denied(Opened(s), x.(statefine := 0), s.lists[0]) ==> y.errnum > x.errnum)
  }

  /** At the first line. */
  function Opened(m: Mem): Mem
    requires m.lists != []
  {
    m.(vcont := true, aline := if m.lists[0] == [] then None else Some((0, 0)))
  }

  lemma ExpandEnds(before: Mem, mark: Mem, x: Extra, lines: seq<Line>, m: Mem, y: Extra)
    requires before.lists != [] && lines == before.lists[0] && mark == Opened(before)
    requires Expanding(mark, x.(statefine := 0), lines, m, y) && (m.aline.None? || !m.vcont)
    ensures Expanded(before, x, m, y)
  {
    hide LineDone;
  }

  lemma OnFirstList(mark: Mem, rest: Extra, m: Mem, x: Extra, lines: seq<Line>)
    requires Expanding(mark, rest, lines, m, x) && m.aline.Some?
    ensures Tracks(mark, m, lines) && m.lists != [] && m.lists[0] == lines && m.aline.value.0 == 0
    ensures m.aline.value.1 < |lines|
  {
    hide TextDone;
  }

  lemma TracksOn(mark: Mem, here: Mem, after: Mem, lines: seq<Line>)
    requires Tracks(mark, here, lines) && here.aline.Some? && Follows(here, after) && WellFormed(after)
    ensures Tracks(mark, after, lines) && after.aline.Some? && after.aline.value.1 >= here.aline.value.1
    ensures after.vcont ==> here.vcont
  {
  }

  lemma NextTracks(mark: Mem, m: Mem, lines: seq<Line>)
    requires Tracks(mark, m, lines) && m.aline.Some? && WellFormed(m)
    ensures m.aline.value.0 < |m.lists|
    ensures var next := if m.aline.value.1 + 1 < |m.lists[m.aline.value.0]| then Some((m.aline.value.0,
              m.aline.value.1 + 1)) else None;
            && WellFormed(m.(aline := next)) && Tracks(mark, m.(aline := next), lines)
            && Reached(next, lines) == m.aline.value.1 + 1
  {
  }

  /** A line on: what is left of the text ends where it did. */
  lemma LineExpanded(mark: Mem, rest: Extra, lines: seq<Line>, here: Mem, was: Extra, after: Mem, x: Extra, m: Mem)
    requires WellFormed(here) && here.aline.Some? && here.vcont && here.depth < MAX_DEPTH
    requires Expanding(mark, rest, lines, here, was) && Tracks(mark, after, lines) && Tracks(mark, m, lines)
    requires here.lists != [] && here.lists[0] == lines && here.aline.value.0 == 0 && here.aline.value.1 < |lines|
    requires was.statefine == 0 && was.symtbl == [] ==>
               var o := LineStart(Scope(here.lists, here.refs, was.line), [], MAX_DEPTH - here.depth,
                   lines[here.aline.value.1].text, "");
               o.Some? ==> WritesLine(o.value, here, was, after, x)
    requires was.statefine > 0 ==>
               var n := Passed(MAX_DEPTH - here.depth, lines[here.aline.value.1].text, was.statefine);
               n.Some? ==> after == here && x == was.(statefine := n.value)
    requires after.aline.Some? && m == after.(aline := m.aline) && Reached(m.aline, lines) == after.aline.value.1 + 1
    requires x.errnum >= was.errnum
    ensures Expanding(mark, rest, lines, m, x)
  {
    hide LineStart, EquLines, ForDone, Passed, LineDone, TextDone, Denies, FalseHere, WritesLine, Tracks;
    var fuel, p := MAX_DEPTH - here.depth, At(here, was, lines);
    if rest.symtbl == [] && Whole(mark, rest, lines).Some? {
      TextGoesOn(lines, fuel, p);
      LineMoves(lines, here, was, after, x, m);
    }
    if rest.symtbl == [] && Denied(mark, rest, lines) && was.errnum <= rest.errnum {
      DenialGoesOn(lines, fuel, p);
      if LineDone(lines, fuel, p).Some? {
        LineMoves(lines, here, was, after, x, m);
      } else {
        FalseIsError(lines, here, was, after, x);
      }
    }
  }

  lemma DenialGoesOn(lines: seq<Line>, fuel: nat, p: Progress)
    requires p.Valid() && p.at < |lines| && p.open && Denies(lines, fuel, p)
    ensures var q := LineDone(lines, fuel, p);
            if q.Some? then Denies(lines, fuel, q.value) else FalseHere(lines, fuel, p)
  {
    hide LineDone, FalseHere;
  }

  lemma FalseIsError(lines: seq<Line>, here: Mem, was: Extra, after: Mem, x: Extra)
    requires here.aline.Some? && here.aline.value.1 < |lines| && here.depth <= MAX_DEPTH && At(here, was, lines).Valid()
    requires was.statefine == 0 ==>
               var o := LineStart(Scope(here.lists, here.refs, was.line), [], MAX_DEPTH - here.depth,
                   lines[here.aline.value.1].text, "");
               o.Some? ==> WritesLine(o.value, here, was, after, x)
    requires FalseHere(lines, MAX_DEPTH - here.depth, At(here, was, lines))
    ensures x.errnum > was.errnum
  {
    hide LineStart, EvalExpr, LocOf;
  }

  lemma TextGoesOn(lines: seq<Line>, fuel: nat, p: Progress)
    requires p.Valid() && p.at < |lines| && p.open && TextDone(lines, fuel, p).Some?
    ensures LineDone(lines, fuel, p).Some?
    ensures TextDone(lines, fuel, p) == TextDone(lines, fuel, LineDone(lines, fuel, p).value)
  {
    hide LineDone;
  }

  /** The state and the progress after a line that leads to `q`. */
  predicate Leads(q: Progress, here: Mem, was: Extra, lines: seq<Line>, m: Mem, x: Extra) {
    q == At(m, x, lines) && OnlyOn(here, was, m, x)
  }

  lemma LineMoves(lines: seq<Line>, here: Mem, was: Extra, after: Mem, x: Extra, m: Mem)
    requires WellFormed(here) && here.aline.Some? && here.vcont && here.depth < MAX_DEPTH && was.symtbl == []
    requires here.lists != [] && here.lists[0] == lines && here.aline.value.0 == 0 && here.aline.value.1 < |lines|
    requires was.statefine == 0 ==>
               var o := LineStart(Scope(here.lists, here.refs, was.line), [], MAX_DEPTH - here.depth,
                   lines[here.aline.value.1].text, "");
               o.Some? ==> WritesLine(o.value, here, was, after, x)
    requires was.statefine > 0 ==>
               var n := Passed(MAX_DEPTH - here.depth, lines[here.aline.value.1].text, was.statefine);
               n.Some? ==> after == here && x == was.(statefine := n.value)
    requires after.aline.Some? && m == after.(aline := m.aline) && Reached(m.aline, lines) == after.aline.value.1 + 1
    requires At(here, was, lines).Valid() && LineDone(lines, MAX_DEPTH - here.depth, At(here, was, lines)).Some?
    ensures Leads(LineDone(lines, MAX_DEPTH - here.depth, At(here, was, lines)).value, here, was, lines, m, x)
  {
    hide LineStart, ForDone, Passed, WritesLine, Leads, WellFormed, InstructionDone, EquDone, EquLines;
    var p := At(here, was, lines);
    if was.statefine == 0 {
      match LineStart(p.s, [], MAX_DEPTH - here.depth, lines[p.at].text, "").value
      case Opens(labels, op, text) => InstructionLeads(lines, here, was, labels, op, text, after, x, m);
      case Defines(labels, expr) => EquLeads(lines, here, was, labels, expr, after, x, m);
      case Repeats(labels, expr, fuel) => ForLeads(lines, here, was, labels, expr, fuel, after, x, m);
      case Asserts(expr) => AssertLeads(lines, here, was, expr, after, x, m);
    } else {
      PassedLeads(lines, here, was, x, m);
    }
  }

  lemma PassedLeads(lines: seq<Line>, here: Mem, was: Extra, x: Extra, m: Mem)
    requires here.aline.Some? && here.aline.value.1 < |lines| && x == was.(statefine := x.statefine)
    requires m == here.(aline := m.aline) && Reached(m.aline, lines) == here.aline.value.1 + 1
    ensures var p := At(here, was, lines);
            Leads(p.(at := p.at + 1, passing := x.statefine), here, was, lines, m, x)
  {
  }

  lemma AssertLeads(lines: seq<Line>, here: Mem, was: Extra, expr: string, after: Mem, x: Extra, m: Mem)
    requires here.aline.Some? && here.aline.value.1 < |lines| && At(here, was, lines).Valid() && after.aline.Some?
    requires WritesLine(Asserts(expr), here, was, after, x)
    requires m == after.(aline := m.aline) && Reached(m.aline, lines) == after.aline.value.1 + 1
    ensures var q := AssertDone(At(here, was, lines), expr); q.Some? ==> Leads(q.value, here, was, lines, m, x)
  {
    hide EvalExpr, LocOf;
  }

  lemma InstructionLeads(lines: seq<Line>, here: Mem, was: Extra, labels: seq<string>, op: nat, text: string,
                         after: Mem, x: Extra, m: Mem)
    requires OnLine(here) && here.lists[here.aline.value.0] == lines && At(here, was, lines).Valid()
    requires WritesLine(Opens(labels, op, text), here, was, after, x)
    requires after.aline.Some? && m == after.(aline := m.aline)
    requires Reached(m.aline, lines) == after.aline.value.1 + 1
    ensures var p := At(here, was, lines);
            Leads(InstructionDone(p, labels, op, Line(text, lines[p.at].loc)), here, was, lines, m, x)
  {
  }

  lemma EquLeads(lines: seq<Line>, here: Mem, was: Extra, labels: seq<string>, expr: string, after: Mem, x: Extra,
                 m: Mem)
    requires OnLine(here) && here.lists[here.aline.value.0] == lines && At(here, was, lines).Valid()
    requires WritesLine(Defines(labels, expr), here, was, after, x)
    requires after.aline.Some? && m == after.(aline := m.aline)
    requires Reached(m.aline, lines) == after.aline.value.1 + 1
    ensures var p := At(here, was, lines);
            Leads(EquDone(p, labels, [Line(expr, lines[p.at].loc)] + EquLines(lines[p.at + 1..])), here, was, lines, m,
                  x)
  {
    hide EquLines;
  }

  lemma ForLeads(lines: seq<Line>, here: Mem, was: Extra, labels: seq<string>, expr: string, fuel: nat, after: Mem,
                 x: Extra, m: Mem)
    requires OnLine(here) && here.lists[here.aline.value.0] == lines && At(here, was, lines).Valid() && here.vcont
    requires WritesLine(Repeats(labels, expr, fuel), here, was, after, x) && was.symtbl == []
    requires after.aline.Some? && m == after.(aline := m.aline)
    requires Reached(m.aline, lines) == after.aline.value.1 + 1
    ensures var p := At(here, was, lines);
            var q := ForDone(lines, fuel, p.(at := p.at + 1), labels, expr);
            q.Some? ==> Leads(q.value, here, was, lines, m, x)
  {
    hide ForDone;
  }

  // ---- a text without symbols ----

  predicate Instructs(t: string) {
    Statement(t).Some? && |Statement(t).value.1| < MAXALLCHAR && |t| < MAX_DEPTH
  }

  /** Instructions without symbols, none of them END. */
  predicate Simple(lines: seq<Line>) {
    forall k :: 0 <= k < |lines| ==> Instructs(lines[k].text) && Statement(lines[k].text).value.0 != ENDOP
  }

  /** The first `k` lines as pass 1 writes them. */
  function Written(lines: seq<Line>, k: nat): seq<Line>
    requires k <= |lines|
  {
    if k == 0 then []
    else
      var s := Statement(lines[k - 1].text);
      Written(lines, k - 1) + if s.Some? then [Line(s.value.1, lines[k - 1].loc)] else []
  }

  /** The instructions among the first `k` lines. */
  function Numbered(lines: seq<Line>, k: nat): nat
    requires k <= |lines|
  {
    if k == 0 then 0
    else
      var s := Statement(lines[k - 1].text);
      Numbered(lines, k - 1) + if s.Some? && s.value.0 < OPNUM then 1 else 0
  }

  /** The progress after `k` simple lines. */
  function Simply(lines: seq<Line>, p: Progress, k: nat): (q: Progress)
    requires k <= |lines| && p.Valid()
    ensures q.Valid() && q.at == k && q.open && q.passing == p.passing
  {
    p.(s := p.s.(line := p.s.line + Numbered(lines, k)), out := Written(lines, k), at := k, open := true)
  }

  /** Simple lines are written as they stand. */
  lemma {:induction false} SimpleDone(lines: seq<Line>, p: Progress, k: nat)
    requires Simple(lines) && p.Valid() && p.passing == 0 && k <= |lines|
    ensures TextDone(lines, MAX_DEPTH, Simply(lines, p, k)) == Some(Simply(lines, p, |lines|))
    decreases |lines| - k
  {
    hide LineDone, Simply, Simple;
    if k < |lines| {
      SimpleDone(lines, p, k + 1);
      SimpleLineDone(lines, p, k);
    }
  }

  lemma {:induction false} SimpleLineDone(lines: seq<Line>, p: Progress, k: nat)
    requires Simple(lines) && p.Valid() && p.passing == 0 && k < |lines|
    ensures LineDone(lines, MAX_DEPTH, Simply(lines, p, k)) == Some(Simply(lines, p, k + 1))
  {
    hide LineStart, Statement, Passed, ForDone, EquDone, EquLines, Written, Numbered, Simple, Instructs;
    SimpleAt(lines, k);
    WrittenNext(lines, k + 1);
    var here := Simply(lines, p, k).s;
    PlainStarts(here, MAX_DEPTH, lines[k].text);
    assert here.refs + [] == here.refs;
  }

  lemma SimpleAt(lines: seq<Line>, k: nat)
    requires Simple(lines) && k < |lines|
    ensures Instructs(lines[k].text) && Statement(lines[k].text).value.0 != ENDOP
  {
  }

  // ---- pass 2 ----

  /** The automaton fills in what `z` says, and nothing else changes. */
  predicate Scanned(z: Option<Parts>, s: Mem, x: Extra, t: Mem, y: Extra) {
    z.Some? ==> t == s && y == x.(parts := z.value)
  }

  lemma NoFuelToScan(s: Scope, expr: string, at: Where, parts: Parts)
    requires s.Valid()
    ensures ScanOn(s, 0, expr, at, parts).None?
  {
  }

  lemma MarkKeeps(m: Mem, k: nat)
    requires WellFormed(m) && k < |m.refs|
    ensures WellFormed(m.(refs := m.refs[k := m.refs[k].(visit := true)]))
  {
  }

  lemma UnmarkKeeps(was: Mem, mark: Mem, m: Mem, k: nat)
    requires WellFormed(m) && k < |was.refs| && !was.refs[k].visit
    requires mark == was.(refs := was.refs[k := was.refs[k].(visit := true)]) && Follows(mark, m)
    ensures k < |m.refs|
    ensures var n := m.(refs := m.refs[k := m.refs[k].(visit := false)]); WellFormed(n) && Follows(was, n)
  {
  }

  // ---- lines of a listing ----

  /** An instruction's line is assembled to it. */
  lemma LineIsCoded(s: Scope, cs: nat, i: Instruction, c: Coding)
    requires s.Valid() && Normalised(cs, i) && 1 <= cs <= 65535 && c.Valid()
    ensures LineCoded(cs, s, MAX_DEPTH, ShortText(cs, i), c) == Some((Some(i), c.(line := c.line + 1)))
  {
    hide ScanOn, Scan, OpIndex, EvalExpr, LineParts, ShortText, OpcodeOf, ModifierOf, DefaultModifier;
    var here := s.(line := c.line);
    LineScans(cs, i, UNREAD);
    ShortIsShort(cs, i);
    PlainScan(here, MAX_DEPTH, ShortText(cs, i), AtOp, UNREAD);
    FieldsMean(cs, i, c.regs, c.save);
    PartsAreFilled(cs, i);
  }

  lemma PartsAreFilled(cs: nat, i: Instruction)
    requires Normalised(cs, i)
    ensures var p := LineParts(cs, i);
            Fillable(p) && Filled(p) == p && Zeroed(p) == p && p.opcode < OPNUM
  {
    hide OpIndex, Position;
    OpNameIndex(i.op);
  }

  /** And the first line, to the start. */
  lemma StartIsCoded(s: Scope, cs: nat, start: nat, c: Coding)
    requires s.Valid() && start < cs <= 65535 && c.Valid()
    ensures LineCoded(cs, s, MAX_DEPTH, StartText(start), c) == Some((None, c.(offset := start)))
  {
    hide ScanOn, Scan, OpIndex, EvalExpr;
    StartScans(start, UNREAD);
    StartIsShort(start);
    PlainScan(s.(line := c.line), MAX_DEPTH, StartText(start), AtOp, UNREAD);
    NumberEvaluates(start, c.regs, c.save);
    Bits.ModUnique(start, cs, 0, start);
  }

  lemma ShortIsShort(cs: nat, i: Instruction)
    requires Normalised(cs, i) && cs <= 65535
    ensures |ShortText(cs, i)| <= 30 && |LineText(cs, i)| <= 30
  {
    SignedIsShort(cs, i.a);
    SignedIsShort(cs, i.b);
    hide ShowInt, Signed;
  }

  /** A line's parts give the instruction back. */
  lemma FieldsMean(cs: nat, i: Instruction, regs: seq<int>, save: nat)
    requires Normalised(cs, i) && 1 <= cs <= 65535 && St(regs, save, Fine).Valid()
    ensures var p := LineParts(cs, i);
            && p.opcode < OPNUM && OpcodeOf(p.opcode) == i.op && p.modifier.Some? && p.modifier.value < 7
               && ModifierOf(p.modifier.value) == i.modifier
            && p.aExpr != "" && p.bExpr != "" && p.aMode == i.aMode && p.bMode == i.bMode
            && EvalExpr(p.aExpr, regs, save) == (Fine, Signed(i.a, cs), St(regs, save, Fine))
            && EvalExpr(p.bExpr, regs, save) == (Fine, Signed(i.b, cs), St(regs, save, Fine))
            && Signed(i.a, cs) % cs == i.a && Signed(i.b, cs) % cs == i.b
  {
    hide EvalExpr, OpIndex, Position, OpcodeOf, ModifierOf, Signed;
    OpNameIndex(i.op);
    ModNameIndex(i.modifier);
    SignedIsShort(cs, i.a);
    SignedIsShort(cs, i.b);
    NumberEvaluates(Signed(i.a, cs), regs, save);
    NumberEvaluates(Signed(i.b, cs), regs, save);
    SignedWraps(cs, i.a);
    SignedWraps(cs, i.b);
  }

  /** The lines pass 1 writes for the listing of a warrior the configuration
      takes. */
  predicate Listed(lines: seq<Line>, cfg: Config, w: Warrior) {
    && cfg.coreSize <= 65535 && NormalisedWarrior(cfg.coreSize, w)
    && 1 <= |w.code| <= cfg.maxLength && |w.code| <= MAXINSTR
    && |lines| == |w.code| + 1 && lines[0].text == StartText(w.start)
    && forall k :: 0 <= k < |w.code| ==> lines[k + 1].text == ShortText(cfg.coreSize, w.code[k])
  }

  /** The instructions before line `k`. */
  function Before(k: nat): nat {
    if k == 0 then 0 else k - 1
  }

  /** The lines of a listing are assembled to the warrior. */
  lemma {:induction false} ListedIsCoded(s: Scope, cfg: Config, w: Warrior, lines: seq<Line>, k: nat, c: Coding)
    requires s.Valid() && cfg.coreSize >= 1 && Listed(lines, cfg, w) && c.Valid() && k <= |lines|
    ensures Before(k) <= |w.code|
    ensures LinesCoded(cfg.coreSize, s, MAX_DEPTH, lines, k, c)
            == Some((w.code[..Before(k)],
                     c.(line := c.line + Before(k), offset := if k == 0 then c.offset else w.start)))
  {
    hide LineCoded, ShortText, StartText, LinesCoded;
    if k == 0 {
      NothingIsCoded(cfg.coreSize, s, MAX_DEPTH, lines, c);
    } else {
      ListedIsCoded(s, cfg, w, lines, k - 1, c);
      CodedNext(cfg.coreSize, s, MAX_DEPTH, lines, k - 1, c);
      var d := LinesCoded(cfg.coreSize, s, MAX_DEPTH, lines, k - 1, c).value.1;
      if k == 1 {
        StartIsCoded(s, cfg.coreSize, w.start, d);
      } else {
        assert Normalised(cfg.coreSize, w.code[k - 2]) && lines[k - 1].text == ShortText(cfg.coreSize, w.code[k - 2]);
        LineIsCoded(s, cfg.coreSize, w.code[k - 2], d);
        assert w.code[..k - 1] == w.code[..k - 2] + [w.code[k - 2]];
      }
    }
  }

  lemma ListedLength(lines: seq<Line>, cfg: Config, w: Warrior)
    requires Listed(lines, cfg, w)
    ensures |lines| == |w.code| + 1 && |w.code| >= 1
  {
  }

  lemma AddedListKeeps(m: Mem, lines: seq<Line>)
    requires WellFormed(m)
    ensures WellFormed(m.(lists := m.lists + [lines]))
    ensures Scope(m.lists + [lines], m.refs, 0).Valid()
  {
  }

  lemma GoTo(m: Mem, list: nat, k: nat)
    requires WellFormed(m) && list < |m.lists| && k < |m.lists[list]|
    ensures WellFormed(m.(aline := Some((list, k))))
  {
  }

  lemma ListStays(s: Mem, t: Mem, list: nat, lines: seq<Line>)
    requires Follows(s, t) && list < |s.lists| && s.lists[list] == lines
    ensures list < |t.lists| && t.lists[list] == lines
  {
  }

  /** What one read takes: up to `room` characters, through the end of the line. */
  function Taken(s: string, room: nat): (r: string)
    ensures |r| <= |s| && |r| <= room && s[..|r|] == r && (s != "" && room > 0 ==> r != "")
  {
    if s == "" || room == 0 then "" else if s[0] == '\n' then [s[0]] else [s[0]] + Taken(s[1..], room - 1)
  }

  /** Cut at the line's end or at a carriage return. */
  function Cut(s: string): (r: string)
    ensures |r| <= |s|
  {
    if s == "" || s[0] == '\n' || s[0] == '\r' then "" else [s[0]] + Cut(s[1..])
  }

  /** A line of `s` behind `buf`: read up to 255 characters in all, and while a
      backslash ends it the next line in the backslash's place. The line, what is
      left, and whether the text had anything. */
  function LineRead(s: string, buf: string): (r: (string, string, bool))
    requires |buf| < MAXALLCHAR - 1
    ensures |r.0| <= MAXALLCHAR - 1 && (r.2 ==> |r.1| < |s|)
    decreases |s|
  {
    if s == "" then (buf, s, false)
    else
      var taken := Taken(s, MAXALLCHAR - 1 - |buf|);
      var line := buf + Cut(taken);
      if line == "" || line[|line| - 1] != '\\' then (line, s[|taken|..], true)
      else LineRead(s[|taken|..], line[..|line| - 1])
  }

  /** One line of at most 255 characters, a backslash joining the next to it. */
  method ReadLine(data: string, start: nat) returns (buf: string, pos: nat, more: bool)
    requires start <= |data|
    ensures start <= pos <= |data| && (more ==> pos > start) && |buf| <= MAXALLCHAR - 1
    ensures (buf, data[pos..], more) == LineRead(data[start..], "")
  {
    hide LineRead, Taken, Cut;
    buf, pos, more := "", start, true;
    while true
      invariant start <= pos <= |data| && |buf| < MAXALLCHAR - 1 && more
      invariant LineRead(data[pos..], buf) == LineRead(data[start..], "")
      decreases |data| - pos
    {
      LineReadStep(data, pos, buf);
      if pos == |data| {
        more := false;
        return;
      }
      var chunk, next := ReadChunk(data, pos, MAXALLCHAR - 1 - |buf|);
      pos := next;
      buf := buf + chunk;
      if buf == "" || buf[|buf| - 1] != '\\' {
        return;
      }
      buf := buf[..|buf| - 1];
    }
  }

  lemma LineReadStep(data: string, pos: nat, buf: string)
    requires pos <= |data| && |buf| < MAXALLCHAR - 1
    ensures pos == |data| ==> LineRead(data[pos..], buf) == (buf, data[pos..], false)
    ensures pos < |data| ==>
              var taken := Taken(data[pos..], MAXALLCHAR - 1 - |buf|);
              var line := buf + Cut(taken);
              && taken != "" && pos + |taken| <= |data|
              && LineRead(data[pos..], buf) ==
                 if line == "" || line[|line| - 1] != '\\' then (line, data[pos + |taken|..], true)
                 else LineRead(data[pos + |taken|..], line[..|line| - 1])
  {
    hide Taken, Cut;
    if pos < |data| {
      var taken := Taken(data[pos..], MAXALLCHAR - 1 - |buf|);
      assert data[pos..][|taken|..] == data[pos + |taken|..];
    }
  }

  /** Up to `room` characters through the end of the line, cut at the line's end
      or at a carriage return. */
  method ReadChunk(data: string, start: nat, room: nat) returns (chunk: string, pos: nat)
    requires start <= |data|
    ensures var taken := Taken(data[start..], room); pos == start + |taken| && chunk == Cut(taken)
  {
    hide Taken, Cut;
    pos := start;
    var ended := false;
    ghost var all := Taken(data[start..], room);
    TakenStep(data, start, room);
    while !ended && pos - start < room && pos < |data|
      invariant start <= pos <= |data| && pos - start <= room
      invariant ended ==> pos - start == |all|
      invariant !ended ==> |all| == pos - start + |Taken(data[pos..], room - (pos - start))|
      decreases |data| - pos, !ended
    {
      TakenStep(data, pos, room - (pos - start));
      if data[pos] == '\n' {
        ended := true;
      }
      pos := pos + 1;
    }
    if !ended {
      TakenStep(data, pos, room - (pos - start));
    }
    assert data[start..][..|all|] == data[start..pos];
    chunk := CutAt(data[start..pos]);
  }

  lemma TakenStep(data: string, pos: nat, room: nat)
    requires pos <= |data|
    ensures room == 0 || pos == |data| ==> Taken(data[pos..], room) == ""
    ensures room > 0 && pos < |data| ==>
              |Taken(data[pos..], room)| == 1 + if data[pos] == '\n' then 0 else |Taken(data[pos + 1..], room - 1)|
  {
    if pos < |data| {
      assert data[pos..][1..] == data[pos + 1..];
    }
  }

  method CutAt(taken: string) returns (chunk: string)
    ensures chunk == Cut(taken)
  {
    hide Cut;
    var cut := 0;
    CutStep(taken, 0);
    assert taken[0..] == taken;
    while cut < |taken| && taken[cut] != '\n' && taken[cut] != '\r'
      invariant cut <= |taken| && |Cut(taken)| == cut + |Cut(taken[cut..])|
    {
      CutStep(taken, cut);
      cut := cut + 1;
    }
    CutStep(taken, cut);
    CutIsPrefix(taken);
    chunk := taken[..cut];
  }

  lemma CutStep(s: string, k: nat)
    requires k <= |s|
    ensures |Cut(s[k..])| == if k == |s| || s[k] == '\n' || s[k] == '\r' then 0 else 1 + |Cut(s[k + 1..])|
  {
    if k < |s| {
      assert s[k..][1..] == s[k + 1..];
    }
  }

  lemma {:induction false} CutIsPrefix(s: string)
    ensures s[..|Cut(s)|] == Cut(s)
  {
    if Cut(s) != "" {
      CutIsPrefix(s[1..]);
      assert s[..|Cut(s)|] == [s[0]] + s[1..][..|Cut(s)| - 1];
    }
  }

  /** A line with nothing special in it is read as it is. */
  lemma TameReads(l: string, rest: string)
    requires Tame(l)
    ensures LineRead(l + ("\n" + rest), "") == (l, rest, true)
  {
    hide Taken, Cut;
    TameTaken(l, rest, MAXALLCHAR - 1);
    TameCut(l);
    var s := l + ("\n" + rest);
    assert s[|l + "\n"|..] == rest && "" + l == l && l[|l| - 1] != '\\';
  }

  lemma {:induction false} TameTaken(l: string, rest: string, room: nat)
    requires (forall i :: 0 <= i < |l| ==> l[i] != '\n') && |l| < room
    ensures Taken(l + ("\n" + rest), room) == l + "\n"
  {
    var s := l + ("\n" + rest);
    if l != "" {
      TameTaken(l[1..], rest, room - 1);
      assert s[1..] == l[1..] + ("\n" + rest);
    }
  }

  lemma {:induction false} TameCut(l: string)
    requires forall i :: 0 <= i < |l| ==> l[i] != '\n' && l[i] != '\r'
    ensures Cut(l + "\n") == l
  {
    if l != "" {
      TameCut(l[1..]);
      assert (l + "\n")[1..] == l[1..] + "\n";
    }
  }

  /** Up to the first semicolon. */
  function Uncommented(s: string): string {
    if s == "" || s[0] == ';' then "" else [s[0]] + Uncommented(s[1..])
  }

  // ---- the lines of a source ----

  /** `;redcode`, the semicolon taken off. */
  predicate Frames(t: string) {
    var (tok, rest) := GetToken(t);
    Upper(tok.text) == "REDCODE" && |t| - |rest| == 7
  }

  /** An assertion is kept up to a second comment. */
  function Asserted(line: string, t: string): Option<string> {
    var (tok, rest) := GetToken(t);
    var tail := Skip(rest);
    if Upper(tok.text) == "ASSERT" && |tail| <= |line| then Some(line[..|line| - |tail|] + Uncommented(tail)) else None
  }

  /** A line taken behind `lines`: the lines then, whether the program has started,
      and whether it ends here. The first `;redcode` forgets what is before it, the
      next one ends the program. */
  function LineTaken(line: string, loc: nat, lines: seq<Line>, started: bool): (seq<Line>, bool, bool) {
    var (tok, rest) := GetToken(line);
    if tok.kind.End? then (lines, started, false)
    else if !tok.kind.Comm? then (lines + [Line(Uncommented(line), loc)], started, false)
    else if Frames(rest) then if started then (lines, started, true) else ([], true, false)
    else
      var kept := Asserted(line, rest);
      (if kept.Some? then lines + [Line(kept.value, loc)] else lines, started, false)
  }

  /** The lines of the text `s`, which is behind line `loc`, behind `lines`. */
  function LinesFrom(s: string, loc: nat, lines: seq<Line>, started: bool): seq<Line>
    decreases |s|
  {
    var (line, rest, more) := LineRead(s, "");
    var (now, on, ended) := LineTaken(line, loc + 1, lines, started);
    if !more || ended then now else LinesFrom(rest, loc + 1, now, on)
  }

  function SourceLines(src: string): seq<Line> {
    LinesFrom(src, 0, [], false)
  }

  // ---- the lines of a listing ----

  /** A line with nothing special in it, beginning with a word. */
  predicate Tame(l: string) {
    && 1 <= |l| < MAXALLCHAR - 1 && GetToken(l).0.kind.Char?
    && forall i :: 0 <= i < |l| ==> l[i] != '\n' && l[i] != '\r' && l[i] != '\\' && l[i] != ';'
  }

  predicate AllTame(ls: seq<string>) {
    forall k :: 0 <= k < |ls| ==> Tame(ls[k])
  }

  /** The first `n` lines, numbered from 1. */
  predicate Numbers(lines: seq<Line>, ls: seq<string>, n: nat) {
    |lines| == n <= |ls| && forall k :: 0 <= k < n ==> lines[k] == Line(ls[k], k + 1)
  }

  lemma {:induction false} TameStays(s: string)
    requires forall i :: 0 <= i < |s| ==> s[i] != ';'
    ensures Uncommented(s) == s
  {
    if s != "" {
      TameStays(s[1..]);
    }
  }

  lemma {:induction false} LinesFromStep(s: string, loc: nat, lines: seq<Line>, started: bool)
    ensures var (line, rest, more) := LineRead(s, "");
            var (now, on, ended) := LineTaken(line, loc + 1, lines, started);
            LinesFrom(s, loc, lines, started) == if !more || ended then now else LinesFrom(rest, loc + 1, now, on)
  {
    hide LineRead, LineTaken;
  }

  /** The lines of a source of tame lines are these, numbered. */
  lemma TameSource(ls: seq<string>)
    requires AllTame(ls)
    ensures SourceLines(Joined(ls)) == NumberedLines(ls)
  {
    hide LinesFrom, Joined, AllTame;
    assert ls[0..] == ls && NumberedLines(ls)[..0] == [] && NumberedLines(ls)[..|ls|] == NumberedLines(ls);
    TameLinesFrom(ls, 0);
  }

  lemma {:induction false} TameLinesFrom(ls: seq<string>, n: nat)
    requires AllTame(ls) && n <= |ls|
    ensures LinesFrom(Joined(ls[n..]), n, NumberedLines(ls)[..n], false) == NumberedLines(ls)
    decreases |ls| - n
  {
    hide LinesFrom, Joined, LineRead, LineTaken, Tame, Joined;
    var lines := NumberedLines(ls);
    LinesFromStep(Joined(ls[n..]), n, lines[..n], false);
    NextLineReads(ls, n);
    TameLine(ls, n, lines[..n]);
    if n < |ls| {
      assert lines[..n + 1] == lines[..n] + [lines[n]];
      TameLinesFrom(ls, n + 1);
    } else {
      assert lines[..n] == lines;
    }
  }

  /** The next line read is the listing's next. */
  lemma NextLineReads(ls: seq<string>, n: nat)
    requires n <= |ls| && AllTame(ls)
    ensures LineRead(Joined(ls[n..]), "") == if n < |ls| then (ls[n], Joined(ls[n + 1..]), true) else ("", "", false)
  {
    hide Tame;
    JoinedRest(ls, n);
    if n < |ls| {
      TameReads(ls[n], Joined(ls[n + 1..]));
    }
  }

  /** What is left of a listing begins with its next line. */
  lemma JoinedRest(ls: seq<string>, n: nat)
    requires n <= |ls|
    ensures n == |ls| ==> Joined(ls[n..]) == ""
    ensures n < |ls| ==> Joined(ls[n..]) == ls[n] + ("\n" + Joined(ls[n + 1..]))
  {
    if n < |ls| {
      assert ls[n..][0] == ls[n] && ls[n..][1..] == ls[n + 1..];
    }
  }

  lemma TameLine(ls: seq<string>, n: nat, lines: seq<Line>)
    requires AllTame(ls) && n <= |ls|
    ensures n < |ls| ==> LineTaken(ls[n], n + 1, lines, false) == (lines + [Line(ls[n], n + 1)], false, false)
    ensures LineTaken("", n + 1, lines, false) == (lines, false, false)
  {
    hide Uncommented, Frames, Asserted;
    if n < |ls| {
      assert Tame(ls[n]);
      TameStays(ls[n]);
    }
  }

  /** No EQU is in the list of the source's own lines. */
  predicate FirstFree(refs: seq<Ref>) {
    forall k :: 0 <= k < |refs| ==> refs[k].kind != EquText(0)
  }

  lemma FirstList(m: Mem, lines: seq<Line>)
    requires WellFormed(m) && m.lists != [] && m.aline.None? && FirstFree(m.refs)
    ensures WellFormed(m.(lists := m.lists[0 := lines]))
  {
  }

  /** What assembling a source gives: the program, or that there were errors;
      the messages either way. */
  datatype Result =
    | Assembled(code: seq<Instruction>, start: int, pin: Option<int>, messages: seq<(Problem, nat)>)
    | Refused(messages: seq<(Problem, nat)>)

  const MAX_SOURCE: nat := 1_048_576

  /** The constants every source may use, by name. */
  function Constants(cfg: Config): (r: seq<(string, nat)>)
    requires cfg.coreSize >= 1
    ensures |r| == 9
  {
    [("CORESIZE", cfg.coreSize), ("MAXPROCESSES", cfg.maxProcesses), ("MAXCYCLES", cfg.maxCycles),
     ("MAXLENGTH", cfg.maxLength), ("MINDISTANCE", cfg.minDistance), ("VERSION", 92), ("WARRIORS", cfg.warriors),
     ("ROUNDS", cfg.rounds), ("PSPACESIZE", cfg.PspaceSize())]
  }

  /** Each is an EQU of one line, its list behind that of the source. */
  function PredefLists(cfg: Config, n: nat): seq<seq<Line>>
    requires cfg.coreSize >= 1 && n <= 9
  {
    seq(n, k requires 0 <= k < n => [Line(ShowNat(Constants(cfg)[k].1), 0)])
  }

  function PredefRefs(cfg: Config, n: nat): seq<Ref>
    requires cfg.coreSize >= 1 && n <= 9
  {
    seq(n, k requires 0 <= k < n => Ref([Constants(cfg)[k].0], EquText(k + 1), false))
  }

  /** Their names and values. */
  lemma PredefsRead(cfg: Config)
    requires cfg.coreSize >= 1
    ensures var r, l := PredefRefs(cfg, 9), PredefLists(cfg, 9);
            && |r| == |l| == 9 && (forall k :: 0 <= k < 9 ==> r[k].kind == EquText(k + 1) && !r[k].visit)
            && r[0].names == ["CORESIZE"] && l[0] == [Line(ShowNat(cfg.coreSize), 0)]
            && r[1].names == ["MAXPROCESSES"] && l[1] == [Line(ShowNat(cfg.maxProcesses), 0)]
            && r[2].names == ["MAXCYCLES"] && l[2] == [Line(ShowNat(cfg.maxCycles), 0)]
            && r[3].names == ["MAXLENGTH"] && l[3] == [Line(ShowNat(cfg.maxLength), 0)]
            && r[4].names == ["MINDISTANCE"] && l[4] == [Line(ShowNat(cfg.minDistance), 0)]
            && r[5].names == ["VERSION"] && l[5] == [Line(ShowNat(92), 0)]
            && r[6].names == ["WARRIORS"] && l[6] == [Line(ShowNat(cfg.warriors), 0)]
            && r[7].names == ["ROUNDS"] && l[7] == [Line(ShowNat(cfg.rounds), 0)]
            && r[8].names == ["PSPACESIZE"] && l[8] == [Line(ShowNat(cfg.PspaceSize()), 0)]
  {
    hide ShowNat;
  }

  lemma PredefsFree(cfg: Config)
    requires cfg.coreSize >= 1
    ensures FirstFree(PredefRefs(cfg, 9))
  {
    hide Constants;
  }

  lemma NoPredefsYet(cfg: Config)
    requires cfg.coreSize >= 1
    ensures PredefLists(cfg, 0) == [] && PredefRefs(cfg, 0) == []
  {
  }

  lemma PredefNext(cfg: Config, n: nat)
    requires cfg.coreSize >= 1 && n < 9
    ensures PredefLists(cfg, n + 1) == PredefLists(cfg, n) + [[Line(ShowNat(Constants(cfg)[n].1), 0)]]
    ensures PredefRefs(cfg, n + 1) == PredefRefs(cfg, n) + [Ref([Constants(cfg)[n].0], EquText(n + 1), false)]
    ensures |PredefLists(cfg, n)| == n
  {
    hide Constants, ShowNat;
  }

  /** The registers of expressions at the start: all zero, but for the number of
      warriors in W and S of the first. */
  function StartRegisters(cfg: Config): (r: seq<int>)
    ensures |r| == 26
  {
    var zero: seq<int> := seq(26, _ => 0);
    if cfg.firstWarrior then zero[22 := cfg.warriors][18 := cfg.warriors] else zero
  }

  lemma StartRegistersRead(cfg: Config, c: char)
    requires 'A' <= c <= 'Z'
    ensures StartRegisters(cfg)[c as int - 'A' as int]
            == if cfg.firstWarrior && (c == 'W' || c == 'S') then cfg.warriors else 0
  {
  }

  /** The source's lines as they are read, numbered from 1. */
  function NumberedLines(ls: seq<string>): (r: seq<Line>)
    ensures |r| == |ls|
  {
    seq(|ls|, k requires 0 <= k < |ls| => Line(ls[k], k + 1))
  }

  /** Pass 1 before the first line. */
  function Started(cfg: Config, lines: seq<Line>): (p: Progress)
    requires cfg.coreSize >= 1 && cfg.warriors <= 0xFFFF_FFFF
    ensures p.Valid()
  {
    Progress(Scope([lines] + PredefLists(cfg, 9), PredefRefs(cfg, 9), 0), [], 0, true, 0, 0, StartRegisters(cfg), 0,
             true)
  }

  /** The program of lines with nothing special to reading in them. */
  function Program(cfg: Config, ls: seq<string>): Option<(seq<Instruction>, int, Option<int>)>
    requires cfg.coreSize >= 1 && cfg.warriors <= 0xFFFF_FFFF
  {
    ProgramOf(cfg, NumberedLines(ls))
  }

  /** What a source is, line by line: pass 1 goes through its lines, and pass 2
      through what pass 1 wrote. Code, start and PIN; nothing where the source
      reports an error. */
  function ProgramOf(cfg: Config, lines: seq<Line>): Option<(seq<Instruction>, int, Option<int>)>
    requires cfg.coreSize >= 1 && cfg.warriors <= 0xFFFF_FFFF
  {
    var p := TextDone(lines, MAX_DEPTH, Started(cfg, lines));
    if p.None? || p.value.s.line > cfg.maxLength || p.value.s.line > MAXINSTR then None
    else if p.value.s.line == 0 then Some(([], 0, None))
    else
      var s := p.value.s.(lists := p.value.s.lists + [p.value.out], line := 0);
      var out := p.value.out;
      var q := LinesCoded(cfg.coreSize, s, MAX_DEPTH, out, |out|, Coding(0, p.value.regs, p.value.save, 0, None));
      if q.None? then None else Some((q.value.0, q.value.1.offset, q.value.1.pin))
  }

  /** Sources that are refused: fine lines lead to a false assertion, or there are
      too many instructions, or fine lines lead to one without a value. */
  predicate Rejects(cfg: Config, lines: seq<Line>)
    requires cfg.coreSize >= 1 && cfg.warriors <= 0xFFFF_FFFF
  {
    var p := TextDone(lines, MAX_DEPTH, Started(cfg, lines));
    || Denies(lines, MAX_DEPTH, Started(cfg, lines))
    || (p.Some? && p.value.s.line > cfg.maxLength)
    || (p.Some? && p.value.s.line > 0
        && var s := p.value.s.(lists := p.value.s.lists + [p.value.out], line := 0);
           LeadsNowhere(cfg.coreSize, s, MAX_DEPTH, p.value.out, Coding(0, p.value.regs, p.value.save, 0, None)))
  }

  /** Assemble a source: an answer for every text, and for one whose lines are a
      program line by line, that program; in particular for lines `ls` with nothing
      special to reading in them. The listing of a warrior assembles back to it. */
  method Assemble(src: string, cfg: Config, ghost ls: seq<string>, ghost w: Warrior) returns (r: Result)
    requires cfg.Check(2) == Accepted && cfg.warriors <= 0xFFFF_FFFF
    ensures |src| > MAX_SOURCE ==> r.Refused?
    ensures r.Assembled? ==> NormalisedCode(cfg.coreSize, r.code)
    ensures Rejects(cfg, SourceLines(src)) ==> r.Refused?
    ensures |src| <= MAX_SOURCE && ProgramOf(cfg, SourceLines(src)).Some? ==>
              r.Assembled? && (r.code, r.start, r.pin) == ProgramOf(cfg, SourceLines(src)).value
    ensures src == Joined(ls) && AllTame(ls) && |src| <= MAX_SOURCE && Program(cfg, ls).Some? ==>
              r.Assembled? && (r.code, r.start, r.pin) == Program(cfg, ls).value
    ensures NormalisedWarrior(cfg.coreSize, w) && 1 <= |w.code| <= cfg.maxLength && ls == Lines(cfg.coreSize, w)
              && src == Joined(ls) ==>
              r.Assembled? && (r.code, r.start, r.pin) == (w.code, w.start, None)
  {
    CheckedBounds(cfg);
    hide Config.Check, ProgramOf, Rejects, WellFormed, Joined, AllTame, NormalisedWarrior, SourceLines, NumberedLines;
    if NormalisedWarrior(cfg.coreSize, w) && 1 <= |w.code| <= cfg.maxLength && ls == Lines(cfg.coreSize, w) {
      ListingIsTame(cfg.coreSize, w);
      ListingLength(cfg.coreSize, w);
      ListingIsProgram(cfg, w);
    }
    if src == Joined(ls) && AllTame(ls) {
      TameSource(ls);
    }
    if |src| > MAX_SOURCE {
      return Refused([]);
    }
    var a := new Asm(cfg);
    NewIsWell(a.Core(), a.regs, a.saveOper);
    var code := a.Process(src);
    r := if a.errnum == 0 then Assembled(code, a.offset, a.pin, a.diags) else Refused(a.diags);
  }

  /** A new assembler. */
  predicate IsNew(m: Mem, x: Extra) {
    && m == Mem([[]], [], [], 0, 0, false, true, None)
    && x == Extra([], 0, 0, [], [], 0, true, seq(26, _ => 0), 0, Parts(0, None, Direct, "", Direct, "", false, AtOp),
                  false, 0, None)
  }

  /** What it knows before the first line. */
  lemma StartIs(cfg: Config, m: Mem, x: Extra, lines: seq<Line>)
    requires cfg.coreSize >= 1 && cfg.warriors <= 0xFFFF_FFFF && m.lists == [lines] + PredefLists(cfg, 9)
    requires m.refs == PredefRefs(cfg, 9) && m.depth == 0 && m.expanded == 0
    requires x.out == [] && x.regs == StartRegisters(cfg) && x.saveOper == 0 && x.noassert
    ensures Whole(Opened(m), x.(line := 0, statefine := 0), lines) == TextDone(lines, MAX_DEPTH, Started(cfg, lines))
    ensures Denied(Opened(m), x.(line := 0, statefine := 0), lines) == Denies(lines, MAX_DEPTH, Started(cfg, lines))
  {
    hide TextDone, Denies, PredefLists, PredefRefs, StartRegisters;
  }

  lemma NewIsWell(m: Mem, regs: seq<int>, save: nat)
    requires m == Mem([[]], [], [], 0, 0, false, true, None) && regs == seq(26, _ => 0)
    ensures WellFormed(m) && St(regs, save, Fine).Valid()
  {
  }

  lemma CheckedBounds(cfg: Config)
    requires cfg.Check(2) == Accepted
    ensures 1 <= cfg.coreSize <= 65535 && cfg.maxLength <= 1000
  {
  }

  /** The lines are those of the listing of a warrior the configuration takes. */
  predicate IsListing(cfg: Config, w: Warrior, lines: seq<Line>) {
    && cfg.coreSize <= 65535 && NormalisedWarrior(cfg.coreSize, w) && 1 <= |w.code| <= cfg.maxLength
       && |w.code| <= MAXINSTR
    && Numbers(lines, Lines(cfg.coreSize, w), |w.code| + 1)
  }

  lemma ListingPasses(cfg: Config, w: Warrior, lines: seq<Line>)
    requires IsListing(cfg, w, lines)
    ensures Simple(lines) && Listed([] + Written(lines, |lines|), cfg, w) && Numbered(lines, |lines|) == |w.code|
  {
    hide Numbers, Simple, Written, Numbered;
    ListingIsSimple(cfg, w, lines);
    ListingIsWritten(cfg, w, lines);
  }

  /** The listing of a warrior is the warrior. */
  lemma ListingIsProgram(cfg: Config, w: Warrior)
    requires 1 <= cfg.coreSize <= 65535 && cfg.warriors <= 0xFFFF_FFFF && cfg.maxLength <= MAXINSTR
    requires NormalisedWarrior(cfg.coreSize, w) && 1 <= |w.code| <= cfg.maxLength
    ensures Program(cfg, Lines(cfg.coreSize, w)) == Some((w.code, w.start as int, None))
  {
    hide Listed, Simple, Written, Numbered, TextDone, LinesCoded, Lines, Numbers;
    var lines := NumberedLines(Lines(cfg.coreSize, w));
    NumberedAre(Lines(cfg.coreSize, w));
    ListingPasses(cfg, w, lines);
    var p := Started(cfg, lines);
    WrittenNothing(lines);
    SimpleDone(lines, p, 0);
    var q := Simply(lines, p, |lines|);
    var s := q.s.(lists := q.s.lists + [q.out], line := 0);
    ListedIsCoded(s, cfg, w, q.out, |q.out|, Coding(0, q.regs, q.save, 0, None));
    ListedLength(q.out, cfg, w);
    assert w.code[..|w.code|] == w.code;
  }

  lemma NumberedAre(ls: seq<string>)
    ensures Numbers(NumberedLines(ls), ls, |ls|)
  {
  }

  lemma WrittenNothing(lines: seq<Line>)
    ensures Written(lines, 0) == [] && Numbered(lines, 0) == 0
    ensures [] + Written(lines, |lines|) == Written(lines, |lines|)
  {
  }

  lemma ListingIsSimple(cfg: Config, w: Warrior, lines: seq<Line>)
    requires cfg.coreSize <= 65535 && NormalisedWarrior(cfg.coreSize, w)
    requires Numbers(lines, Lines(cfg.coreSize, w), |w.code| + 1)
    ensures Simple(lines)
  {
    hide Statement, LineText, ShortText, StartText, Lines, Instructs, OpIndex;
    forall k | 0 <= k < |lines|
      ensures Instructs(lines[k].text) && Statement(lines[k].text).Some? && Statement(lines[k].text).value.0 != ENDOP
    {
      ListingLine(cfg.coreSize, w, k);
    }
  }

  lemma ListingIsWritten(cfg: Config, w: Warrior, lines: seq<Line>)
    requires cfg.coreSize <= 65535 && NormalisedWarrior(cfg.coreSize, w) && 1 <= |w.code| <= cfg.maxLength
    requires |w.code| <= MAXINSTR
    requires Numbers(lines, Lines(cfg.coreSize, w), |w.code| + 1)
    ensures Listed([] + Written(lines, |lines|), cfg, w) && Numbered(lines, |lines|) == |w.code|
  {
    hide ShortText, StartText, Lines, Written, Numbered, OutText;
    assert |lines| == |w.code| + 1;
    hide Numbers;
    WrittenListing(cfg.coreSize, w, lines, |w.code| + 1);
    OutIsListed(cfg, w, Written(lines, |lines|));
    assert [] + Written(lines, |lines|) == Written(lines, |lines|);
  }

  lemma OutIsListed(cfg: Config, w: Warrior, out: seq<Line>)
    requires cfg.coreSize <= 65535 && NormalisedWarrior(cfg.coreSize, w) && 1 <= |w.code| <= cfg.maxLength
    requires |w.code| <= MAXINSTR
    requires |out| == |w.code| + 1 && forall j :: 0 <= j < |out| ==> out[j].text == OutText(cfg.coreSize, w, j)
    ensures Listed(out, cfg, w)
  {
    hide ShortText, StartText;
    forall k | 0 <= k < |w.code|
      ensures out[k + 1].text == ShortText(cfg.coreSize, w.code[k])
    {
      assert out[k + 1].text == OutText(cfg.coreSize, w, k + 1);
    }
  }

  /** Line `k` of a listing after pass 1, and its opcode number. */
  function OutText(cs: nat, w: Warrior, k: nat): string
    requires NormalisedWarrior(cs, w) && k <= |w.code|
  {
    if k == 0 then StartText(w.start) else ShortText(cs, w.code[k - 1])
  }

  function OutOp(w: Warrior, k: nat): (op: nat)
    requires k <= |w.code|
    ensures op <= EQUOP
  {
    if k == 0 then ORGOP else OpIndex(OpName(w.code[k - 1].op))
  }

  lemma ListingLine(cs: nat, w: Warrior, k: nat)
    requires cs <= 65535 && NormalisedWarrior(cs, w) && k <= |w.code|
    ensures var t := Lines(cs, w)[k]; Instructs(t) && Statement(t) == Some((OutOp(w, k), OutText(cs, w, k)))
    ensures (k > 0 ==> OutOp(w, k) < OPNUM) && (k == 0 ==> OutOp(w, k) == ORGOP)
  {
    hide Statement, OpIndex, LineText, ShortText, StartText;
    if k == 0 {
      StartIsStatement(w.start);
      StartIsShort(w.start);
    } else {
      LineIsStatement(cs, w.code[k - 1]);
      ShortIsShort(cs, w.code[k - 1]);
      OpNameIndex(w.code[k - 1].op);
    }
  }

  lemma StartIsShort(start: nat)
    requires start < 65535
    ensures |StartText(start)| <= 9
  {
    ShowNatIsShort(start, 5);
  }

  lemma {:induction false} WrittenListing(cs: nat, w: Warrior, lines: seq<Line>, k: nat)
    requires cs <= 65535 && NormalisedWarrior(cs, w) && k <= |w.code| + 1 && Numbers(lines, Lines(cs, w), |w.code| + 1)
    ensures |Written(lines, k)| == k && Numbered(lines, k) == Before(k)
    ensures forall j :: 0 <= j < k ==> Written(lines, k)[j].text == OutText(cs, w, j)
    decreases k
  {
    hide Statement, Lines, Instructs, OutText, OutOp;
    if k > 0 {
      WrittenListing(cs, w, lines, k - 1);
      ListingLine(cs, w, k - 1);
      assert lines[k - 1].text == Lines(cs, w)[k - 1];
      WrittenNext(lines, k);
    }
  }

  lemma WrittenNext(lines: seq<Line>, k: nat)
    requires 0 < k <= |lines| && Statement(lines[k - 1].text).Some?
    ensures var s := Statement(lines[k - 1].text).value;
            && Written(lines, k) == Written(lines, k - 1) + [Line(s.1, lines[k - 1].loc)]
            && Numbered(lines, k) == Numbered(lines, k - 1) + if s.0 < OPNUM then 1 else 0
  {
    hide Statement;
  }

  // ---- the listing's lines through reading and pass 1 ----

  lemma ListingIsTame(cs: nat, w: Warrior)
    requires NormalisedWarrior(cs, w) && cs <= 65535
    ensures AllTame(Lines(cs, w))
  {
    hide Tame, LineText, StartText;
    var ls := Lines(cs, w);
    forall k | 0 <= k < |ls|
      ensures Tame(ls[k])
    {
      if k == 0 {
        StartIsTame(w.start);
      } else {
        LineIsTame(cs, w.code[k - 1]);
      }
    }
  }

  predicate Clean(s: string) {
    forall i :: 0 <= i < |s| ==> s[i] != '\n' && s[i] != '\r' && s[i] != '\\' && s[i] != ';'
  }

  lemma LineIsTame(cs: nat, i: Instruction)
    requires Normalised(cs, i) && cs <= 65535
    ensures Tame(LineText(cs, i))
  {
    hide Squeeze, GetToken, Signed, OpIndex, Upper, Run, ShortText, Clean, ShowInt, ShowNat;
    ShortIsShort(cs, i);
    var x, y := Signed(i.a, cs), Signed(i.b, cs);
    CleanParts(i, x, y);
    var t6 := [Symbol(i.bMode)] + ShowInt(y);
    CleanJoins([Symbol(i.bMode)], ShowInt(y));
    CleanJoins(", ", t6);
    CleanJoins(ShowInt(x), ", " + t6);
    CleanJoins([Symbol(i.aMode)], ShowInt(x) + (", " + t6));
    var t2 := " " + ([Symbol(i.aMode)] + (ShowInt(x) + (", " + t6)));
    CleanJoins(" ", [Symbol(i.aMode)] + (ShowInt(x) + (", " + t6)));
    CleanJoins(ModName(i.modifier), t2);
    CleanJoins(".", ModName(i.modifier) + t2);
    CleanJoins(OpName(i.op), "." + (ModName(i.modifier) + t2));
    WordToken(OpName(i.op), "." + (ModName(i.modifier) + t2));
    CleanIsTame(LineText(cs, i));
  }

  lemma CleanIsTame(l: string)
    requires Clean(l) && 1 <= |l| < MAXALLCHAR - 1 && GetToken(l).0.kind.Char?
    ensures Tame(l)
  {
    hide GetToken;
  }

  lemma CleanJoins(x: string, y: string)
    requires Clean(x) && Clean(y)
    ensures Clean(x + y)
  {
  }

  lemma CleanParts(i: Instruction, x: int, y: int)
    ensures Clean(OpName(i.op)) && Clean(ModName(i.modifier)) && Clean([Symbol(i.aMode)]) && Clean([Symbol(i.bMode)])
    ensures Clean(ShowInt(x)) && Clean(ShowInt(y)) && Clean(", ") && Clean(" ") && Clean(".")
  {
    hide ShowNat;
  }

  lemma StartIsTame(start: nat)
    requires start < 65535
    ensures Tame(StartText(start))
  {
    hide GetToken, ShowNat;
    ShowNatIsShort(start, 5);
    WordToken("ORG", " " + ShowNat(start));
    assert StartText(start) == "ORG" + (" " + ShowNat(start));
    CleanDigits(start);
  }

  lemma CleanDigits(n: nat)
    ensures Clean(ShowNat(n))
  {
    hide ShowNat;
  }

  lemma {:induction false} JoinedLength(ls: seq<string>, k: nat)
    requires forall i :: 0 <= i < |ls| ==> |ls[i]| <= k
    ensures |Joined(ls)| <= |ls| * (k + 1)
  {
    if ls != [] {
      JoinedLength(ls[1..], k);
    }
  }

  lemma ListingLength(cs: nat, w: Warrior)
    requires NormalisedWarrior(cs, w) && cs <= 65535 && |w.code| <= 1000
    ensures |Joined(Lines(cs, w))| <= MAX_SOURCE
  {
    hide LineText, ShowNat, ShowInt, Signed;
    var ls := Lines(cs, w);
    forall k | 0 <= k < |ls|
      ensures |ls[k]| <= 30
    {
      if k == 0 {
        ShowNatIsShort(w.start, 5);
        assert ls[k] == StartText(w.start);
      } else {
        ShortIsShort(cs, w.code[k - 1]);
        assert ls[k] == LineText(cs, w.code[k - 1]);
      }
    }
    JoinedLength(ls, 30);
  }
}
