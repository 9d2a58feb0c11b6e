/** Expressions without parentheses (src/asm.rs:571-612): how operators group,
    and where that is not the usual way. */
module Chains {
  import Bits
  import opened Text
  import opened Evaluator
  import opened Expressions

  /** How strongly an operator binds. */
  function Level(op: Op): (n: nat)
    ensures 1 <= n <= 5
  {
    match op
    case Times => 5 case Over => 5 case Modulo => 5
    case Plus => 4 case Minus => 4
    case Equals => 3 case Differs => 3 case Below => 3 case Above => 3 case AtMost => 3 case AtLeast => 3
    case Both => 2
    case Either => 1
  }

  lemma LevelIs(op: Op)
    ensures Precedence(OpCode(op)) == Level(op) && (OpCode(op) == 0 <==> op == Equals)
  {
  }

  /** An operator with the operand behind it. */
  datatype Link = Link(pad: string, op: Op, t: Tree)

  predicate Fits(l: Link) {
    AllSpace(l.pad) && Proper(l.t)
  }

  predicate AllFit(ls: seq<Link>) {
    forall k :: 0 <= k < |ls| ==> Fits(ls[k])
  }

  /** What is behind an operand: operators and operands in turn, and white space. */
  function Behind(ls: seq<Link>, pad: string): string {
    if ls == [] then pad else Linked(ls[0], Behind(ls[1..], pad))
  }

  /** An operator, its operand, and what is behind. */
  function Linked(l: Link, after: string): string {
    l.pad + (OpText(l.op) + (Spelled(l.t) + after))
  }

  /** `a + b * c < d`. */
  function Chain(t: Tree, ls: seq<Link>, pad: string): string {
    Spelled(t) + Behind(ls, pad)
  }

  function With(l: Tree, op: Op, r: Tree): (e: Tree)
    requires Proper(l) && Proper(r)
    ensures Proper(e)
  {
    Pair("", l, "", op, r, "")
  }

  /** Evaluated as a tree alone is. */
  predicate Evaluates(text: string, regs: seq<int>, save: nat, e: Tree)
    requires St(regs, save, Fine).Valid() && Proper(e)
  {
    EvalExpr(text, regs, save) == (StatusAfter(e, Fine), Value(e), St(regs, 0, StatusAfter(e, Fine)))
  }

  // ---- one operator on ----

  lemma WithMeans(l: Tree, op: Op, r: Tree, err: Status)
    requires Proper(l) && Proper(r)
    ensures Calc(Value(l), Value(r), OpCode(op), StatusAfter(r, StatusAfter(l, err)))
            == (Value(With(l, op, r)), StatusAfter(With(l, op, r), err))
  {
    hide Calc, Wrap, Ideal, Proper;
    CalcIsIdeal(op, Value(l), Value(r), StatusAfter(r, StatusAfter(l, err)));
  }

  /** Before an operator the evaluator reduces to the left if the operator before
      binds as strongly, and the right side first otherwise. */
  lemma Meets(prev: int, x: int, oper1: nat, t: Tree, l: Link, after: string, st: St)
    requires Proper(t) && Fits(l) && Int64(x) && st.Valid()
    ensures var next := Spelled(l.t) + after;
            var s := St(st.regs, 0, StatusAfter(t, st.err));
            var p1, p2 := Precedence(oper1), Level(l.op);
            Eval(prev, x, oper1, Spelled(t) + Linked(l, after), st)
            == if p1 >= p2 then
                 var c := Calc(x, Value(t), oper1, s.err);
                 if p2 >= prev || p1 <= prev then Eval(p1, c.0, OpCode(l.op), next, s.(err := c.1))
                 else Out(next, c.0, s.(err := c.1, save := OpCode(l.op)))
               else
                 var b := Eval(p1, Value(t), OpCode(l.op), next, s);
                 var c := Calc(x, b.v, oper1, b.st.err);
                 if b.st.save != 0 && Precedence(b.st.save) >= prev then
                   var d := Eval(p2, c.0, b.st.save, b.rest, b.st.(err := c.1));
                   d.(st := d.st.(save := 0))
                 else Out(b.rest, c.0, b.st.(err := c.1))
  {
    hide Calc, Precedence, GetOp, GetVal, Value, StatusAfter, Spelled, OpText, Skip, OpCode;
    var next := Spelled(l.t) + after;
    TreeHead(l.t, after);
    Middle(l.pad, l.op, next);
    LevelIs(l.op);
    ReadsTree(t, l.pad + (OpText(l.op) + next), st);
  }

  lemma Finishes(prev: int, x: int, oper1: nat, t: Tree, pad: string, st: St)
    requires Proper(t) && AllSpace(pad) && Int64(x) && st.Valid()
    ensures var c := Calc(x, Value(t), oper1, StatusAfter(t, st.err));
            Eval(prev, x, oper1, Spelled(t) + pad, st) == Out("", c.0, St(st.regs, SaveAfter(t, st.save), c.1))
  {
    hide Calc, Precedence, GetOp, GetVal, Value, StatusAfter, Spelled, SaveAfter;
    Ends(pad);
    ReadsTree(t, pad, st);
  }

  // ---- the same, in trees ----

  predicate Registers(regs: seq<int>) {
    St(regs, 0, Fine).Valid()
  }

  /** The evaluator with `left` behind it, from status `err` on, and operator `op`
      before the text. */
  function From(prev: int, left: Tree, op: nat, text: string, err: Status, regs: seq<int>, save: nat): Out
    requires Proper(left) && Registers(regs)
  {
    Eval(prev, Value(left), op, text, St(regs, save, StatusAfter(left, err)))
  }

  /** What it comes to: tree `e`, the text left and the operator kept for it. */
  function Comes(e: Tree, rest: string, err: Status, regs: seq<int>, kept: nat): Out
    requires Proper(e)
  {
    Out(rest, Value(e), St(regs, kept, StatusAfter(e, err)))
  }

  function Forgets(o: Out): Out {
    o.(st := o.st.(save := 0))
  }

  /** With the right side reduced into `e`: on with the operator kept, if there is
      one that binds strongly enough, or back with it. An operator of code 0, which
      is `==`, is taken for none. */
  function Resumes(prev: int, e: Tree, level: nat, rest: string, err: Status, regs: seq<int>, kept: nat): Out
    requires Proper(e) && Registers(regs)
  {
    if kept != 0 && Precedence(kept) >= prev then Forgets(From(level, e, kept, rest, err, regs, kept))
    else Comes(e, rest, err, regs, kept)
  }

  lemma TreeEnds(prev: int, left: Tree, op: Op, t: Tree, pad: string, err: Status, regs: seq<int>, save: nat)
    requires Proper(left) && Proper(t) && AllSpace(pad) && Registers(regs)
    ensures From(prev, left, OpCode(op), Spelled(t) + pad, err, regs, save)
            == Comes(With(left, op, t), "", err, regs, SaveAfter(t, save))
  {
    hide Calc, Eval, Value, StatusAfter, Spelled, SaveAfter, OpCode, With, Proper;
    WithMeans(left, op, t, err);
    Finishes(prev, Value(left), OpCode(op), t, pad, St(regs, save, StatusAfter(left, err)));
  }

  /** To the left: on with the next operator, or back with it. */
  lemma TreeReduces(prev: int, left: Tree, op: Op, t: Tree, l: Link, after: string, err: Status, regs: seq<int>,
                    save: nat)
    requires Proper(left) && Proper(t) && Fits(l) && Registers(regs) && Level(op) >= Level(l.op)
    ensures var w, next := With(left, op, t), Spelled(l.t) + after;
            From(prev, left, OpCode(op), Spelled(t) + Linked(l, after), err, regs, save)
            == if Level(l.op) >= prev || Level(op) <= prev then From(Level(op), w, OpCode(l.op), next, err, regs, 0)
               else Comes(w, next, err, regs, OpCode(l.op))
  {
    hide Calc, Eval, Value, StatusAfter, Spelled, Linked, OpCode, With, Level, Proper, Precedence;
    WithMeans(left, op, t, err);
    LevelIs(op);
    Meets(prev, Value(left), OpCode(op), t, l, after, St(regs, save, StatusAfter(left, err)));
  }

  /** To the right first, where it comes to tree `r`. */
  lemma TreeGoesRight(prev: int, left: Tree, op: Op, t: Tree, l: Link, after: string, err: Status, regs: seq<int>,
                      save: nat, r: Tree, rest: string, kept: nat)
    requires Proper(left) && Proper(t) && Fits(l) && Registers(regs) && Level(op) < Level(l.op) && Proper(r)
    requires From(Level(op), t, OpCode(l.op), Spelled(l.t) + after, StatusAfter(left, err), regs, 0)
             == Comes(r, rest, StatusAfter(left, err), regs, kept)
    ensures From(prev, left, OpCode(op), Spelled(t) + Linked(l, after), err, regs, save)
            == Resumes(prev, With(left, op, r), Level(l.op), rest, err, regs, kept)
  {
    hide Calc, Eval, Value, StatusAfter, Spelled, Linked, OpCode, With, Level, Proper, Precedence;
    WithMeans(left, op, r, err);
    LevelIs(op);
    Meets(prev, Value(left), OpCode(op), t, l, after, St(regs, save, StatusAfter(left, err)));
  }

  /** A whole expression, where what follows the first operand comes to tree `r`. */
  lemma ChainGoes(t: Tree, l: Link, after: string, regs: seq<int>, save: nat, r: Tree, rest: string, kept: nat)
    requires Proper(t) && Fits(l) && Registers(regs) && Proper(r)
    requires From(0, t, OpCode(l.op), Spelled(l.t) + after, Fine, regs, 0) == Comes(r, rest, Fine, regs, kept)
    ensures Eval(-1, 0, IDENT, Spelled(t) + Linked(l, after), St(regs, save, Fine))
            == Resumes(-1, r, Level(l.op), rest, Fine, regs, kept)
  {
    hide Calc, Eval, Value, StatusAfter, Spelled, Linked, OpCode, Level, Proper;
    IdentIsRight((Value(r), StatusAfter(r, Fine)));
    Meets(-1, 0, IDENT, t, l, after, St(regs, save, Fine));
  }

  // ---- the usual grouping ----

  /** The last of the operators that bind weakest. */
  function Root(ls: seq<Link>): (k: nat)
    requires ls != []
    ensures k < |ls|
    ensures forall j :: 0 <= j < |ls| ==> Level(ls[k].op) <= Level(ls[j].op)
    ensures forall j :: k < j < |ls| ==> Level(ls[k].op) < Level(ls[j].op)
  {
    if |ls| == 1 then 0
    else
      var k := Root(ls[..|ls| - 1]);
      if Level(ls[|ls| - 1].op) <= Level(ls[k].op) then |ls| - 1 else k
  }

  /** Stronger operators first, equally strong ones from the left. */
  function Usual(t: Tree, ls: seq<Link>): (e: Tree)
    requires Proper(t) && AllFit(ls)
    ensures Proper(e)
    decreases |ls|
  {
    if ls == [] then t
    else
      var k := Root(ls);
      With(Usual(t, ls[..k]), ls[k].op, Usual(ls[k].t, ls[k + 1..]))
  }

  lemma NothingUsual(t: Tree)
    requires Proper(t)
    ensures Usual(t, []) == t
  {
  }

  lemma UsualIs(t: Tree, ls: seq<Link>, k: nat)
    requires Proper(t) && AllFit(ls) && k < |ls|
    requires forall j :: 0 <= j < |ls| ==> Level(ls[k].op) <= Level(ls[j].op)
    requires forall j :: k < j < |ls| ==> Level(ls[k].op) < Level(ls[j].op)
    ensures Usual(t, ls) == With(Usual(t, ls[..k]), ls[k].op, Usual(ls[k].t, ls[k + 1..]))
  {
    hide Level;
    assert Root(ls) == k;
  }

  /** The first two operators, the second no stronger: the first goes first. */
  lemma {:induction false} FrontReduces(t: Tree, ls: seq<Link>)
    requires Proper(t) && AllFit(ls) && |ls| >= 2 && Level(ls[0].op) >= Level(ls[1].op)
    ensures Usual(t, ls) == Usual(With(t, ls[0].op, ls[0].t), ls[1..])
    decreases |ls|
  {
    hide Level, Proper, With, Usual;
    var k := Root(ls);
    var w := With(t, ls[0].op, ls[0].t);
    UsualIs(t, ls, k);
    UsualIs(w, ls[1..], k - 1);
    assert ls[1..][..k - 1] == ls[..k][1..] && ls[1..][k..] == ls[k + 1..];
    if k == 1 {
      assert ls[..1] == [ls[0]] && ls[..1][1..] == [];
      UsualIs(t, ls[..1], 0);
      NothingUsual(t);
      NothingUsual(ls[0].t);
      NothingUsual(w);
    } else {
      FrontReduces(t, ls[..k]);
    }
  }

  // ---- operators that fall and then rise ----

  predicate Rises(ls: seq<Link>, j: nat)
    requires j + 1 < |ls|
  {
    Level(ls[j].op) < Level(ls[j + 1].op)
  }

  /** Once stronger than the one before, each stronger than the one before. */
  predicate Valley(ls: seq<Link>) {
    forall j: nat :: j + 2 < |ls| && Rises(ls, j) ==> Rises(ls, j + 1)
  }

  lemma ValleyOn(ls: seq<Link>)
    requires Valley(ls) && ls != []
    ensures Valley(ls[1..])
  {
    forall j: nat | j + 2 < |ls| - 1 && Rises(ls[1..], j)
      ensures Rises(ls[1..], j + 1)
    {
      assert ls[1..][j] == ls[j + 1] && ls[1..][j + 1] == ls[j + 2] && ls[1..][j + 2] == ls[j + 3];
      assert Rises(ls, j + 1) && Rises(ls, j + 1 + 1);
    }
  }

  lemma {:induction false} RisingRoot(ls: seq<Link>, j: nat)
    requires Valley(ls) && 0 < j < |ls| && Rises(ls, 0)
    ensures Level(ls[0].op) < Level(ls[j].op) && (j + 1 < |ls| ==> Rises(ls, j))
  {
    hide Level;
    if j > 1 {
      RisingRoot(ls, j - 1);
    }
    if j + 1 < |ls| {
      assert Rises(ls, j - 1);
    }
  }

  lemma RisingUsual(t: Tree, ls: seq<Link>)
    requires Proper(t) && AllFit(ls) && Valley(ls) && ls != [] && (|ls| > 1 ==> Rises(ls, 0))
    ensures Usual(t, ls) == With(t, ls[0].op, Usual(ls[0].t, ls[1..]))
  {
    hide Level, Proper, With, Usual, Rises;
    forall j | 0 < j < |ls|
      ensures Level(ls[0].op) < Level(ls[j].op)
    {
      RisingRoot(ls, j);
    }
    UsualIs(t, ls, 0);
    assert ls[..0] == [];
    NothingUsual(t);
  }

  /** The evaluator groups them in the usual way. */
  lemma {:induction false} ValleyFrom(prev: int, left: Tree, ls: seq<Link>, pad: string, err: Status, regs: seq<int>)
    requires Proper(left) && ls != [] && AllFit(ls) && AllSpace(pad) && Registers(regs) && Valley(ls)
    requires prev == 0 || prev >= Level(ls[0].op) || (|ls| > 1 ==> Rises(ls, 0))
    ensures From(prev, left, OpCode(ls[0].op), Spelled(ls[0].t) + Behind(ls[1..], pad), err, regs, 0)
            == Comes(Usual(left, ls), "", err, regs, 0)
    decreases |ls|
  {
    hide Level, Proper, With, From, Comes, Spelled, Linked, OpCode, Usual, Valley, StatusAfter;
    var op, t := ls[0].op, ls[0].t;
    if |ls| == 1 {
      TreeEnds(prev, left, op, t, pad, err, regs, 0);
      SaveStaysZero(t);
      RisingUsual(left, ls);
      assert ls[1..] == [];
      NothingUsual(t);
    } else {
      var next, after := ls[1..], Behind(ls[2..], pad);
      assert next[0] == ls[1] && next[1..] == ls[2..];
      ValleyOn(ls);
      if Rises(ls, 0) {
        RisesOn(ls);
        ValleyFrom(Level(op), t, next, pad, StatusAfter(left, err), regs);
        TreeGoesRight(prev, left, op, t, ls[1], after, err, regs, 0, Usual(t, next), "", 0);
        RisingUsual(left, ls);
      } else {
        TreeReduces(prev, left, op, t, ls[1], after, err, regs, 0);
        ValleyFrom(Level(op), With(left, op, t), next, pad, err, regs);
        FrontReduces(left, ls);
      }
    }
  }

  lemma RisesOn(ls: seq<Link>)
    requires Valley(ls) && |ls| > 1 && Rises(ls, 0)
    ensures |ls| > 2 ==> Rises(ls[1..], 0)
  {
    assert |ls| > 2 ==> Rises(ls, 1);
  }

  // ---- whole expressions ----

  lemma Spells(t: Tree, ls: seq<Link>, pad: string)
    requires ls != []
    ensures Chain(t, ls, pad) == Spelled(t) + Linked(ls[0], Behind(ls[1..], pad))
  {
  }

  lemma WholeEvaluates(text: string, regs: seq<int>, save: nat, e: Tree)
    requires Registers(regs) && Proper(e)
    requires Eval(-1, 0, IDENT, text, St(regs, save, Fine)) == Comes(e, "", Fine, regs, 0)
    ensures Evaluates(text, regs, save, e)
  {
    hide Eval, Value, StatusAfter, Proper;
  }

  /** An expression whose operators fall and then rise, of any length, is evaluated
      as the usual grouping is: equally strong operators from the left, stronger
      ones first. */
  lemma ValleyIsUsual(t: Tree, ls: seq<Link>, pad: string, regs: seq<int>, save: nat)
    requires Proper(t) && AllFit(ls) && AllSpace(pad) && Registers(regs) && Valley(ls) && ls != []
    ensures Evaluates(Chain(t, ls, pad), regs, save, Usual(t, ls))
  {
    hide Level, Proper, With, From, Comes, Spelled, Linked, OpCode, Usual, Valley, Chain, Evaluates, Eval;
    Spells(t, ls, pad);
    ValleyFrom(0, t, ls, pad, Fine, regs);
    ChainGoes(t, ls[0], Behind(ls[1..], pad), regs, save, Usual(t, ls), "", 0);
    WholeEvaluates(Chain(t, ls, pad), regs, save, Usual(t, ls));
  }

  /** So is every expression of two operators. */
  lemma TwoOperators(t: Tree, l: Link, m: Link, pad: string, regs: seq<int>, save: nat)
    requires Proper(t) && Fits(l) && Fits(m) && AllSpace(pad) && Registers(regs)
    ensures Evaluates(Chain(t, [l, m], pad), regs, save,
                      if Level(l.op) >= Level(m.op) then With(With(t, l.op, l.t), m.op, m.t)
                      else With(t, l.op, With(l.t, m.op, m.t)))
  {
    hide Level, Proper, With, Chain, Evaluates, Usual;
    var ls := [l, m];
    ValleyIsUsual(t, ls, pad, regs, save);
    assert ls[1..] == [m];
    OneUsual(l.t, m);
    if Level(l.op) >= Level(m.op) {
      FrontReduces(t, ls);
      OneUsual(With(t, l.op, l.t), m);
    } else {
      RisingUsual(t, ls);
    }
  }

  lemma OneUsual(t: Tree, l: Link)
    requires Proper(t) && Fits(l)
    ensures AllFit([l]) && Usual(t, [l]) == With(t, l.op, l.t)
  {
    hide Level, Proper, With, Usual;
    assert [l][..0] == [] && [l][1..] == [];
    UsualIs(t, [l], 0);
    NothingUsual(t);
    NothingUsual(l.t);
  }

  /** Three operators, the second stronger than the first and than the third: not
      weaker than the first, the third goes with the second; weaker, it takes all
      before it. */
  lemma PeakFrom(t: Tree, ls: seq<Link>, pad: string, regs: seq<int>)
    requires Proper(t) && |ls| == 3 && AllFit(ls) && AllSpace(pad) && Registers(regs)
    requires Level(ls[0].op) < Level(ls[1].op) && Level(ls[1].op) >= Level(ls[2].op)
    ensures var right := With(ls[0].t, ls[1].op, ls[1].t);
            From(0, t, OpCode(ls[0].op), Spelled(ls[0].t) + Behind(ls[1..], pad), Fine, regs, 0)
            == if Level(ls[2].op) >= Level(ls[0].op) then
                 Comes(With(t, ls[0].op, With(right, ls[2].op, ls[2].t)), "", Fine, regs, 0)
               else
                 Resumes(0, With(t, ls[0].op, right), Level(ls[1].op), Spelled(ls[2].t) + pad, Fine, regs,
                         OpCode(ls[2].op))
  {
    hide Level, Proper, With, From, Comes, Spelled, Linked, OpCode, StatusAfter, Resumes;
    var err, right := StatusAfter(t, Fine), With(ls[0].t, ls[1].op, ls[1].t);
    assert ls[1..][0] == ls[1] && ls[1..][1..] == ls[2..] && ls[2..][0] == ls[2] && ls[2..][1..] == [];
    var after := Behind(ls[2..], pad);
    LastBehind(ls[2], pad);
    assert ls[2..] == [ls[2]];
    TreeReduces(Level(ls[0].op), ls[0].t, ls[1].op, ls[1].t, ls[2], pad, err, regs, 0);
    if Level(ls[2].op) >= Level(ls[0].op) {
      TreeEnds(Level(ls[1].op), right, ls[2].op, ls[2].t, pad, err, regs, 0);
      SaveStaysZero(ls[2].t);
      TreeGoesRight(0, t, ls[0].op, ls[0].t, ls[1], after, Fine, regs, 0, With(right, ls[2].op, ls[2].t), "", 0);
      NothingKept(0, With(t, ls[0].op, With(right, ls[2].op, ls[2].t)), Level(ls[1].op), "", Fine, regs);
    } else {
      TreeGoesRight(0, t, ls[0].op, ls[0].t, ls[1], after, Fine, regs, 0, right, Spelled(ls[2].t) + pad,
          OpCode(ls[2].op));
    }
  }

  lemma LastBehind(l: Link, pad: string)
    ensures Behind([l], pad) == Linked(l, pad)
  {
    assert [l][1..] == [];
  }

  lemma NothingKept(prev: int, e: Tree, level: nat, rest: string, err: Status, regs: seq<int>)
    requires Proper(e) && Registers(regs)
    ensures Resumes(prev, e, level, rest, err, regs, 0) == Comes(e, rest, err, regs, 0)
  {
  }

  lemma TreeSeen(e: Tree, rest: string)
    requires Proper(e)
    ensures Head(Spelled(e) + rest) != '\0'
  {
    var s := Spelled(e);
    match e
    case Lit(pad, digits) => assert s[0] == if pad == "" then digits[0] else pad[0];
    case Neg(pad, x) => assert s[0] == if pad == "" then '-' else pad[0];
    case Not(pad, x) => assert s[0] == if pad == "" then '!' else pad[0];
    case Pair(pad, l, opPad, op, r, closePad) => assert s[0] == if pad == "" then '(' else pad[0];
  }

  /** The third operator taking all before it; `==` cannot, and is left over. */
  lemma FallsBack(e: Tree, level: nat, n: Link, pad: string, regs: seq<int>)
    requires Proper(e) && Fits(n) && AllSpace(pad) && Registers(regs)
    ensures Resumes(0, e, level, Spelled(n.t) + pad, Fine, regs, OpCode(n.op))
            == if n.op == Equals then Comes(e, Spelled(n.t) + pad, Fine, regs, 0)
               else Comes(With(e, n.op, n.t), "", Fine, regs, 0)
  {
    hide Level, Proper, With, From, Spelled, OpCode, StatusAfter, SaveAfter, Precedence, Value;
    LevelIs(n.op);
    if n.op != Equals {
      TreeEnds(level, e, n.op, n.t, pad, Fine, regs, OpCode(n.op));
    }
  }

  /** Three operators are grouped in the usual way, but in two cases, both with the
      second stronger than the first. A third just as strong as the first goes with
      the second, so that `a - b * c - d` is `a - (b * c - d)`; and `==` weaker than
      the first is not understood, so that `a + b * c == d` is an error. */
  lemma ThreeOperators(t: Tree, l: Link, m: Link, n: Link, pad: string, regs: seq<int>, save: nat)
    requires Proper(t) && AllFit([l, m, n]) && AllSpace(pad) && St(regs, save, Fine).Valid()
    ensures Fits(l) && Fits(m) && Fits(n)
    ensures var text, a, b, c := Chain(t, [l, m, n], pad), Level(l.op), Level(m.op), Level(n.op);
            if a < b && c < a && n.op == Equals then EvalExpr(text, regs, save).0 == BadExpr
            else if a < b && c == a then
              Evaluates(text, regs, save, With(t, l.op, With(With(l.t, m.op, m.t), n.op, n.t)))
            else Evaluates(text, regs, save, Usual(t, [l, m, n]))
  {
    hide Level, Proper, With, From, Comes, Spelled, OpCode, StatusAfter, Resumes, Chain, Evaluates, Usual, Eval;
    hide EvalExpr, Fits;
    var ls := [l, m, n];
    assert Fits(ls[0]) && Fits(ls[1]) && Fits(ls[2]);
    if Level(l.op) < Level(m.op) && Level(m.op) >= Level(n.op) {
      Peak(t, l, m, n, pad, regs, save);
    } else {
      ThreeValley(ls);
      ValleyIsUsual(t, ls, pad, regs, save);
    }
  }

  lemma ThreeValley(ls: seq<Link>)
    requires |ls| == 3 && (Level(ls[0].op) < Level(ls[1].op) ==> Level(ls[1].op) < Level(ls[2].op))
    ensures Valley(ls)
  {
    hide Level;
    assert Rises(ls, 0) ==> Rises(ls, 1);
  }

  lemma Peak(t: Tree, l: Link, m: Link, n: Link, pad: string, regs: seq<int>, save: nat)
    requires Proper(t) && Fits(l) && Fits(m) && Fits(n) && AllSpace(pad) && Registers(regs)
    requires Level(l.op) < Level(m.op) && Level(m.op) >= Level(n.op)
    ensures var text, a, c := Chain(t, [l, m, n], pad), Level(l.op), Level(n.op);
            if c < a && n.op == Equals then EvalExpr(text, regs, save).0 == BadExpr
            else if c == a then Evaluates(text, regs, save, With(t, l.op, With(With(l.t, m.op, m.t), n.op, n.t)))
            else AllFit([l, m, n]) && Evaluates(text, regs, save, Usual(t, [l, m, n]))
  {
    hide Level, With, From, Comes, Spelled, OpCode, StatusAfter, Resumes, Chain, Evaluates, Usual, Eval, EvalExpr;
    hide Proper, Linked;
    var ls := [l, m, n];
    var right := With(l.t, m.op, m.t);
    var after := Behind(ls[1..], pad);
    Spells(t, ls, pad);
    PeakFrom(t, ls, pad, regs);
    PeakUsual(t, l, m, n);
    if Level(n.op) >= Level(l.op) {
      var e := With(t, l.op, With(right, n.op, n.t));
      ChainGoes(t, l, after, regs, save, e, "", 0);
      NothingKept(-1, e, Level(l.op), "", Fine, regs);
      WholeEvaluates(Chain(t, ls, pad), regs, save, e);
    } else {
      var e := With(t, l.op, right);
      FallsBack(e, Level(m.op), n, pad, regs);
      if n.op == Equals {
        ChainGoes(t, l, after, regs, save, e, Spelled(n.t) + pad, 0);
        NothingKept(-1, e, Level(l.op), Spelled(n.t) + pad, Fine, regs);
        LeftOver(Chain(t, ls, pad), regs, save, e, n.t, pad);
      } else {
        ChainGoes(t, l, after, regs, save, With(e, n.op, n.t), "", 0);
        NothingKept(-1, With(e, n.op, n.t), Level(l.op), "", Fine, regs);
        WholeEvaluates(Chain(t, ls, pad), regs, save, With(e, n.op, n.t));
      }
    }
  }

  lemma LeftOver(text: string, regs: seq<int>, save: nat, e: Tree, t: Tree, pad: string)
    requires Registers(regs) && Proper(e) && Proper(t)
    requires Eval(-1, 0, IDENT, text, St(regs, save, Fine)) == Comes(e, Spelled(t) + pad, Fine, regs, 0)
    ensures EvalExpr(text, regs, save).0 == BadExpr
  {
    hide Eval, Value, StatusAfter, Proper, Spelled;
    TreeSeen(t, pad);
  }

  /** The usual grouping of three operators, the second stronger than the first and
      no weaker than the third. */
  lemma PeakUsual(t: Tree, l: Link, m: Link, n: Link)
    requires Proper(t) && Fits(l) && Fits(m) && Fits(n) && Level(l.op) < Level(m.op) && Level(m.op) >= Level(n.op)
    ensures AllFit([l, m, n])
    ensures var right := With(l.t, m.op, m.t);
            Usual(t, [l, m, n])
            == if Level(n.op) > Level(l.op) then With(t, l.op, With(right, n.op, n.t))
               else With(With(t, l.op, right), n.op, n.t)
  {
    hide Level, With, Usual, Proper;
    if Level(n.op) > Level(l.op) {
      PeakOnRight(t, l, m, n);
    } else {
      PeakOnLeft(t, l, m, n);
    }
  }

  lemma PeakOnRight(t: Tree, l: Link, m: Link, n: Link)
    requires Proper(t) && Fits(l) && Fits(m) && Fits(n) && Level(l.op) < Level(n.op) <= Level(m.op)
    ensures AllFit([l, m, n])
    ensures Usual(t, [l, m, n]) == With(t, l.op, With(With(l.t, m.op, m.t), n.op, n.t))
  {
    hide Level, With, Usual, Proper;
    var ls := [l, m, n];
    UsualIs(t, ls, 0);
    assert ls[..0] == [] && ls[1..] == [m, n];
    NothingUsual(t);
    FrontReduces(l.t, [m, n]);
    assert [m, n][1..] == [n];
    OneUsual(With(l.t, m.op, m.t), n);
  }

  lemma PeakOnLeft(t: Tree, l: Link, m: Link, n: Link)
    requires Proper(t) && Fits(l) && Fits(m) && Fits(n) && Level(n.op) <= Level(l.op) < Level(m.op)
    ensures AllFit([l, m, n])
    ensures Usual(t, [l, m, n]) == With(With(t, l.op, With(l.t, m.op, m.t)), n.op, n.t)
  {
    hide *;
    ThreeFit(l, m, n);
    LastOfThree(t, l, m, n);
    PairRises(t, l, m);
  }

  lemma ThreeFit(l: Link, m: Link, n: Link)
    requires Fits(l) && Fits(m) && Fits(n)
    ensures AllFit([l, m, n]) && AllFit([l, m]) && Proper(n.t)
  {
    hide Proper;
  }

  lemma LastOfThree(t: Tree, l: Link, m: Link, n: Link)
    requires Proper(t) && AllFit([l, m, n]) && AllFit([l, m]) && Proper(n.t)
    requires Level(n.op) <= Level(l.op) < Level(m.op)
    ensures Usual(t, [l, m, n]) == With(Usual(t, [l, m]), n.op, n.t)
  {
    hide *;
    assert [l, m] + [n] == [l, m, n] && [l, m][0] == l && [l, m][1] == m;
    UsualLast(t, [l, m], n);
  }

  lemma UsualLast(t: Tree, init: seq<Link>, n: Link)
    requires Proper(t) && AllFit(init) && init != [] && AllFit(init + [n]) && Proper(n.t)
    requires Level(n.op) <= Level(init[Root(init)].op)
    ensures Usual(t, init + [n]) == With(Usual(t, init), n.op, n.t)
  {
    hide Level, Proper, With, Fits, AllFit;
    var ls := init + [n];
    assert ls[..|init|] == init && ls[|init| + 1..] == [];
    NothingUsual(n.t);
  }

  lemma PairRises(t: Tree, l: Link, m: Link)
    requires Proper(t) && Fits(l) && Fits(m) && Level(l.op) < Level(m.op)
    ensures AllFit([l, m]) && Usual(t, [l, m]) == With(t, l.op, With(l.t, m.op, m.t))
  {
    hide Level, With, Usual, Proper;
    UsualIs(t, [l, m], 0);
    assert [l, m][..0] == [] && [l, m][1..] == [m];
    NothingUsual(t);
    OneUsual(l.t, m);
  }

  /** Numbers for which it shows: `1 - 2 * 3 - 4` is -1, which usually is -9. */
  lemma SumRunsOn(regs: seq<int>, save: nat)
    requires St(regs, save, Fine).Valid()
    ensures EvalExpr("1-2*3-4", regs, save).1 == -1
  {
    hide EvalExpr, Proper, Value, StatusAfter, Spelled;
    var one, two, three, four := Lit("", "1"), Lit("", "2"), Lit("", "3"), Lit("", "4");
    Figure('1');
    Figure('2');
    Figure('3');
    Figure('4');
    assert "1" == ['1'] && "2" == ['2'] && "3" == ['3'] && "4" == ['4'];
    var l, m, n := Link("", Minus, two), Link("", Times, three), Link("", Minus, four);
    var ls := [l, m, n];
    assert Fits(ls[0]) && Fits(ls[1]) && Fits(ls[2]);
    ThreeOperators(one, l, m, n, "", regs, save);
    ExampleText(one, l, m, n);
    PairValue(two, Times, three);
    PairValue(With(two, Times, three), Minus, four);
    PairValue(one, Minus, With(With(two, Times, three), Minus, four));
  }

  lemma Figure(c: char)
    requires IsDigit(c)
    ensures var e := Lit("", [c]); Proper(e) && Value(e) == DigitValue(c) && Spelled(e) == [c]
  {
    assert [c][..0] == [];
    assert Decimal([c]) == 10 * Decimal([]) + DigitValue(c);
  }

  lemma ExampleText(one: Tree, l: Link, m: Link, n: Link)
    requires Spelled(one) == "1" && l.pad == m.pad == n.pad == "" && l.op == n.op == Minus && m.op == Times
    requires Spelled(l.t) == "2" && Spelled(m.t) == "3" && Spelled(n.t) == "4"
    ensures Chain(one, [l, m, n], "") == "1-2*3-4"
  {
    hide Spelled;
    assert [l, m, n][1..] == [m, n] && [m, n][1..] == [n] && [n][1..] == [];
    assert Behind([n], "") == "-4";
    assert Behind([m, n], "") == "*3-4";
    assert Behind([l, m, n], "") == "-2*3-4";
  }

  // ---- operators and registers as they are written ----

  lemma NumberTree(n: nat)
    requires n <= MAX
    ensures var e := Lit("", ShowNat(n)); Proper(e) && Value(e) == n && Spelled(e) == ShowNat(n)
  {
    hide ShowNat;
    Number(n);
    assert "" + ShowNat(n) == ShowNat(n);
  }

  lemma NumbersWith(x: nat, op: Op, y: nat, regs: seq<int>, save: nat)
    requires x <= MAX && y <= MAX && Registers(regs)
    ensures EvalExpr(ShowNat(x) + (OpText(op) + ShowNat(y)), regs, save).1 == Wrap(Ideal(op, x, y))
  {
    hide EvalExpr, ShowNat, OpText, StatusAfter, Ideal, Wrap, Proper;
    NumberTree(x);
    NumberTree(y);
    var l, r := Lit("", ShowNat(x)), Lit("", ShowNat(y));
    EvaluatesPair(l, "", op, r, "", regs, save);
    assert "" + (OpText(op) + (Spelled(r) + "")) == OpText(op) + ShowNat(y);
    PairValue(l, op, r);
  }

  lemma PairValue(l: Tree, op: Op, r: Tree)
    requires Proper(l) && Proper(r)
    ensures Value(Pair("", l, "", op, r, "")) == Wrap(Ideal(op, Value(l), Value(r)))
  {
    hide Ideal, Wrap;
  }

  /** Every operator between two numbers. */
  lemma OperatorsRead(x: nat, y: nat, regs: seq<int>, save: nat)
    requires x <= MAX && y <= MAX && Registers(regs)
    ensures EvalExpr(ShowNat(x) + ("+" + ShowNat(y)), regs, save).1 == Wrap(x + y)
    ensures EvalExpr(ShowNat(x) + ("-" + ShowNat(y)), regs, save).1 == x - y
    ensures EvalExpr(ShowNat(x) + ("*" + ShowNat(y)), regs, save).1 == Wrap(x * y)
    ensures y != 0 ==> EvalExpr(ShowNat(x) + ("/" + ShowNat(y)), regs, save).1 == x / y
    ensures y != 0 ==> EvalExpr(ShowNat(x) + ("%" + ShowNat(y)), regs, save).1 == x % y
    ensures EvalExpr(ShowNat(x) + ("&&" + ShowNat(y)), regs, save).1 == if x != 0 && y != 0 then 1 else 0
    ensures EvalExpr(ShowNat(x) + ("||" + ShowNat(y)), regs, save).1 == if x != 0 || y != 0 then 1 else 0
    ensures EvalExpr(ShowNat(x) + ("==" + ShowNat(y)), regs, save).1 == if x == y then 1 else 0
    ensures EvalExpr(ShowNat(x) + ("!=" + ShowNat(y)), regs, save).1 == if x != y then 1 else 0
    ensures EvalExpr(ShowNat(x) + ("<" + ShowNat(y)), regs, save).1 == if x < y then 1 else 0
    ensures EvalExpr(ShowNat(x) + (">" + ShowNat(y)), regs, save).1 == if x > y then 1 else 0
    ensures EvalExpr(ShowNat(x) + ("<=" + ShowNat(y)), regs, save).1 == if x <= y then 1 else 0
    ensures EvalExpr(ShowNat(x) + (">=" + ShowNat(y)), regs, save).1 == if x >= y then 1 else 0
  {
    hide EvalExpr, ShowNat, Wrap;
    forall op
      ensures EvalExpr(ShowNat(x) + (OpText(op) + ShowNat(y)), regs, save).1 == Wrap(Ideal(op, x, y))
    {
      NumbersWith(x, op, y, regs, save);
    }
    assert OpText(Plus) == "+" && OpText(Minus) == "-" && OpText(Times) == "*" && OpText(Over) == "/";
    assert OpText(Modulo) == "%" && OpText(Both) == "&&" && OpText(Either) == "||" && OpText(Equals) == "==";
    assert OpText(Differs) == "!=" && OpText(Below) == "<" && OpText(Above) == ">" && OpText(AtMost) == "<=";
    assert OpText(AtLeast) == ">=";
    if y != 0 {
      Parts(x, y);
    }
  }

  /** Signs before a number. */
  lemma PrefixesRead(x: nat, regs: seq<int>, save: nat)
    requires x <= MAX && Registers(regs)
    ensures EvalExpr("-" + ShowNat(x), regs, save).1 == -(x as int)
    ensures EvalExpr("!" + ShowNat(x), regs, save).1 == if x == 0 then 1 else 0
  {
    hide EvalExpr, ShowNat, Spelled;
    Number(x);
    var e := Lit("", ShowNat(x));
    SignsSpelled(ShowNat(x));
    TreeAlone(Neg("", e), "-" + ShowNat(x), regs, save);
    TreeAlone(Not("", e), "!" + ShowNat(x), regs, save);
  }

  lemma TreeAlone(e: Tree, text: string, regs: seq<int>, save: nat)
    requires Proper(e) && Registers(regs) && Spelled(e) == text
    ensures EvalExpr(text, regs, save).1 == Value(e)
  {
    hide EvalExpr, Spelled, Value, StatusAfter, SaveAfter;
    EvaluatesTree(e, "", regs, save);
    assert text + "" == text;
  }

  lemma SignsSpelled(t: string)
    ensures Spelled(Neg("", Lit("", t))) == "-" + t && Spelled(Not("", Lit("", t))) == "!" + t
  {
    assert "" + t == t && "" + "-" + t == "-" + t && "" + "!" + t == "!" + t;
  }

  /** A number of more than 63 bits is not understood. */
  lemma TooLarge(x: nat, regs: seq<int>, save: nat)
    requires x > MAX && Registers(regs)
    ensures EvalExpr(ShowNat(x), regs, save).0 == BadExpr
  {
    hide Precedence, Calc, GetVal, ShowNat;
    LargeMet(x, St(regs, save, Fine));
    IdentIsRight((0, BadExpr));
    Ends("");
  }

  lemma LargeMet(x: nat, st: St)
    requires x > MAX && st.Valid()
    ensures GetVal(ShowNat(x), st) == Out("", 0, st.(err := BadExpr))
  {
    hide ShowNat;
    DecimalShows(x);
    SpanTakes(false, ShowNat(x), "");
    assert ShowNat(x) + "" == ShowNat(x);
  }

  /** A plus before an expression changes nothing. */
  lemma PlusAside(t: string, regs: seq<int>, save: nat)
    requires Registers(regs)
    ensures EvalExpr("+" + t, regs, save) == EvalExpr(t, regs, save)
  {
    hide GetVal, Calc, GetOp, Precedence;
    PlusSkipped(t, St(regs, save, Fine));
  }

  lemma PlusSkipped(t: string, st: St)
    requires st.Valid()
    ensures GetVal("+" + t, st) == GetVal(t, st)
  {
    assert ("+" + t)[0] == '+' && ("+" + t)[1..] == t;
  }

  lemma Parts(x: nat, y: nat)
    requires y != 0 && x <= MAX
    ensures Int64(x / y) && Int64(x % y) && Quotient(x, y) == x / y && Remainder(x, y) == x % y
  {
    var q, r := x / y, x % y;
    assert x == y * q + r;
    Bits.MulAtLeast(y, q);
    assert (x / y) * y == y * q;
  }

  /** Registers are named by letters, large and small alike. */
  function Numbered(c: char): (r: nat)
    requires IsAlpha(c)
    ensures r < 26
  {
    if 'a' <= c <= 'z' then c as int - 'a' as int else c as int - 'A' as int
  }

  /** A register alone is its value. */
  lemma RegisterReads(c: char, pad: string, regs: seq<int>, save: nat)
    requires IsAlpha(c) && AllSpace(pad) && Registers(regs)
    ensures var (status, v, st) := EvalExpr([c] + pad, regs, save);
            status == Fine && v == regs[Numbered(c)] && st.regs == regs
  {
    hide Calc, GetVal, GetOp;
    var st := St(regs, save, Fine);
    RegisterAlone(c, pad, st);
    RegisterMet(c, pad, st);
    IdentIsRight((regs[Numbered(c)], Fine));
  }

  lemma RegisterAlone(c: char, pad: string, st: St)
    requires IsAlpha(c) && AllSpace(pad) && st.Valid()
    ensures GetReg(pad, Numbered(c), st) == Out("", st.regs[Numbered(c)], st)
  {
    hide Eval;
    Ends(pad);
  }

  /** An assignment is whatever its expression is, and leaves its value in the
      register. */
  lemma AssignmentReads(c: char, u: string, regs: seq<int>, save: nat)
    requires IsAlpha(c) && Head(u) != '=' && Registers(regs) && EvalExpr(u, regs, save).0 != BadExpr
    ensures var (status, v, st) := EvalExpr(u, regs, save);
            EvalExpr([c] + ("=" + u), regs, save) == (status, v, st.(regs := st.regs[Numbered(c) := v]))
  {
    hide Calc, GetOp;
    var st := St(regs, save, Fine);
    var text, o := "=" + u, Eval(-1, 0, IDENT, u, st);
    assert text[1..] == u && ([c] + text)[1..] == text;
    IdentIsRight((o.v, o.st.err));
    RegisterAssigned(c, u, st);
    RegisterMet(c, text, st);
  }

  lemma RegisterAssigned(c: char, u: string, st: St)
    requires IsAlpha(c) && Head(u) != '=' && st.Valid()
    ensures var o := Eval(-1, 0, IDENT, u, st);
            GetReg("=" + u, Numbered(c), st) == o.(st := o.st.(regs := o.st.regs[Numbered(c) := o.v]))
  {
    hide Eval;
    assert ("=" + u)[1..] == u;
  }

  lemma RegisterMet(c: char, text: string, st: St)
    requires IsAlpha(c) && st.Valid()
    ensures GetVal([c] + text, st) == GetReg(text, Numbered(c), st)
  {
    hide GetReg, Eval;
    assert ([c] + text)[1..] == text;
  }
}
