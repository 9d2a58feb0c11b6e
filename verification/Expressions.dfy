/** What an expression means, and that the evaluator gives it: trees over
    literals, the unary and all the binary operators, every binary operator in
    parentheses, white space anywhere between tokens. */
module Expressions {
  import opened Redcode
  import opened Text
  import opened Evaluator

  datatype Op =
    | Plus | Minus | Times | Over | Modulo
    | Both | Either | Equals | Differs | Below | Above | AtMost | AtLeast

  /** Each part carries the white space before its token. */
  datatype Tree =
    | Lit(pad: string, digits: string)
    | Neg(pad: string, x: Tree)
    | Not(pad: string, x: Tree)
    | Pair(pad: string, l: Tree, opPad: string, op: Op, r: Tree, closePad: string)

  function OpText(op: Op): (s: string)
    ensures 1 <= |s| <= 2
  {
    match op
    case Plus => "+" case Minus => "-" case Times => "*" case Over => "/" case Modulo => "%"
    case Both => "&&" case Either => "||" case Equals => "==" case Differs => "!="
    case Below => "<" case Above => ">" case AtMost => "<=" case AtLeast => ">="
  }

  function Spelled(e: Tree): string {
    match e
    case Lit(pad, digits) => pad + digits
    case Neg(pad, x) => pad + "-" + Spelled(x)
    case Not(pad, x) => pad + "!" + Spelled(x)
    case Pair(pad, l, opPad, op, r, closePad) =>
      pad + "(" + Spelled(l) + opPad + OpText(op) + Spelled(r) + closePad + ")"
  }

  function Size(e: Tree): (n: nat)
    ensures n >= 1
  {
    match e
    case Lit(_, _) => 1
    case Neg(_, x) => 1 + Size(x)
    case Not(_, x) => 1 + Size(x)
    case Pair(_, l, _, _, r, _) => 1 + Size(l) + Size(r)
  }

  predicate Proper(e: Tree) {
    match e
    case Lit(pad, digits) => AllSpace(pad) && digits != "" && AllDigits(digits) && Decimal(digits) <= MAX
    case Neg(pad, x) => AllSpace(pad) && Proper(x)
    case Not(pad, x) => AllSpace(pad) && Proper(x)
    case Pair(pad, l, opPad, op, r, closePad) =>
      AllSpace(pad) && AllSpace(opPad) && AllSpace(closePad) && Proper(l) && Proper(r)
  }

  // ---- meaning ----

  /** Over the integers; a division by zero gives zero. */
  function Ideal(op: Op, x: int, y: int): int {
    match op
    case Plus => x + y
    case Minus => x - y
    case Times => x * y
    case Over => if y == 0 then 0 else Quotient(x, y)
    case Modulo => if y == 0 then 0 else Remainder(x, y)
    case Both => Bool(x != 0 && y != 0)
    case Either => Bool(x != 0 || y != 0)
    case Equals => Bool(x == y)
    case Differs => Bool(x != y)
    case Below => Bool(x < y)
    case Above => Bool(x > y)
    case AtMost => Bool(x <= y)
    case AtLeast => Bool(x >= y)
  }

  /** In 64-bit two's complement, every operation wrapping. */
  function Value(e: Tree): (v: int)
    requires Proper(e)
    ensures Int64(v)
  {
    match e
    case Lit(_, digits) => Decimal(digits)
    case Neg(_, x) => Wrap(-Value(x))
    case Not(_, x) => Bool(Value(x) == 0)
    case Pair(_, l, _, op, r, _) => Wrap(Ideal(op, Value(l), Value(r)))
  }

  /** Over the integers throughout. */
  function Exact(e: Tree): int
    requires Proper(e)
  {
    match e
    case Lit(_, digits) => Decimal(digits)
    case Neg(_, x) => -Exact(x)
    case Not(_, x) => Bool(Exact(x) == 0)
    case Pair(_, l, _, op, r, _) => Ideal(op, Exact(l), Exact(r))
  }

  predicate Divides(op: Op) {
    op.Over? || op.Modulo?
  }

  /** Some divisor is zero. */
  predicate ZeroDivisor(e: Tree)
    requires Proper(e)
  {
    match e
    case Lit(_, _) => false
    case Neg(_, x) => ZeroDivisor(x)
    case Not(_, x) => ZeroDivisor(x)
    case Pair(_, l, _, op, r, _) => ZeroDivisor(l) || ZeroDivisor(r) || (Divides(op) && Value(r) == 0)
  }

  /** Results out of the range that the source's tests do not notice: all of
      them turn the least integer round. */
  predicate Slip(op: Op, x: int, y: int) {
    match op
    case Minus => x == 0 && y == MIN
    case Times => (x == -1 && y == MIN) || (x == MIN && y == -1)
    case Over => x == MIN && y == -1
    case _ => false
  }

  /** Some result leaves the 64-bit range. */
  predicate Overflows(e: Tree)
    requires Proper(e)
  {
    match e
    case Lit(_, _) => false
    case Neg(_, x) => Overflows(x) || !Int64(-Value(x))
    case Not(_, x) => Overflows(x)
    case Pair(_, l, _, op, r, _) => Overflows(l) || Overflows(r) || !Int64(Ideal(op, Value(l), Value(r)))
  }

  /** Some result turns the least integer round: a negation, or an operation
      whose test does not notice. */
  predicate Slips(e: Tree)
    requires Proper(e)
  {
    match e
    case Lit(_, _) => false
    case Neg(_, x) => Slips(x) || Value(x) == MIN
    case Not(_, x) => Slips(x)
    case Pair(_, l, _, op, r, _) => Slips(l) || Slips(r) || Slip(op, Value(l), Value(r))
  }

  /** Some operation's result leaves the range and is no slip. */
  predicate Noticed(e: Tree)
    requires Proper(e)
  {
    match e
    case Lit(_, _) => false
    case Neg(_, x) => Noticed(x)
    case Not(_, x) => Noticed(x)
    case Pair(_, l, _, op, r, _) =>
      Noticed(l) || Noticed(r)
      || (!Int64(Ideal(op, Value(l), Value(r))) && !Slip(op, Value(l), Value(r)))
  }

  /** The status after evaluating `e` with status `err` before. */
  function StatusAfter(e: Tree, err: Status): Status
    requires Proper(e)
  {
    match e
    case Lit(_, _) => err
    case Neg(_, x) => StatusAfter(x, err)
    case Not(_, x) => StatusAfter(x, err)
    case Pair(_, l, _, op, r, _) =>
      Calc(Value(l), Value(r), OpCode(op), StatusAfter(r, StatusAfter(l, err))).1
  }

  function OpCode(op: Op): nat {
    match op
    case Plus => Code('+') case Minus => Code('-') case Times => Code('*') case Over => Code('/')
    case Modulo => Code('%')
    case Both => AND case Either => OR case Equals => EQUAL case Differs => NEQU
    case Below => Code('<') case Above => Code('>') case AtMost => LTE case AtLeast => GTE
  }

  /** An operator resets what an earlier evaluation left saved. */
  function SaveAfter(e: Tree, save: nat): nat {
    match e
    case Lit(_, _) => save
    case Neg(_, x) => SaveAfter(x, save)
    case Not(_, x) => SaveAfter(x, save)
    case Pair(_, _, _, _, _, _) => 0
  }

  // ---- the evaluator's operations are those ----

  lemma CalcIsIdeal(op: Op, x: int, y: int, err: Status)
    requires Int64(x) && Int64(y)
    ensures Calc(x, y, OpCode(op), err).0 == Wrap(Ideal(op, x, y))
  {
  }

  lemma OperatorReads(op: Op, t: string)
    requires Head(t) != '='
    ensures GetOp(OpText(op) + t) == (t, Some(OpCode(op))) && Precedence(OpCode(op)) > 0
    ensures Head(OpText(op) + t) != ')' && Head(OpText(op) + t) != '\0'
    ensures !IsDigit(Head(OpText(op) + t)) && !IsSpace(Head(OpText(op) + t))
  {
    var s := OpText(op);
    assert (s + t)[0] == s[0];
    if |s| == 1 {
      assert (s + t)[1..] == t;
    } else {
      assert (s + t)[1] == s[1] && (s + t)[1..][1..] == t;
    }
  }

  // ---- reading a tree back ----

  /** A tree does not begin with an equals sign. */
  lemma TreeHead(e: Tree, rest: string)
    requires Proper(e)
    ensures Spelled(e) != "" && Head(Spelled(e) + rest) != '='
  {
    var s := Spelled(e);
    match e
    case Lit(pad, digits) => assert s[0] == if pad == "" then digits[0] else pad[0];
    case Neg(pad, x) => assert s[0] == if pad == "" then '-' else pad[0];
    case Not(pad, x) => assert s[0] == if pad == "" then '!' else pad[0];
    case Pair(pad, l, opPad, op, r, closePad) => assert s[0] == if pad == "" then '(' else pad[0];
  }

  /** The evaluator, at the front of a text that begins with a tree, takes
      exactly the tree and gives its value. */
  lemma {:induction false} ReadsTree(e: Tree, rest: string, st: St)
    requires Proper(e) && st.Valid() && !IsDigit(Head(rest))
    ensures GetVal(Spelled(e) + rest, st) == Out(rest, Value(e),
              St(st.regs, SaveAfter(e, st.save), StatusAfter(e, st.err)))
    decreases Size(e)
  {
    hide GetVal, Eval, Calc;
    match e
    case Lit(pad, digits) => ReadsLit(pad, digits, rest, st);
    case Neg(pad, x) =>
      Starts(pad, '-', Spelled(x), rest, st);
      ReadsTree(x, rest, st);
    case Not(pad, x) =>
      Starts(pad, '!', Spelled(x), rest, st);
      ReadsTree(x, rest, st);
    case Pair(pad, l, opPad, op, r, closePad) =>
      ReadsParenthesised(pad, l, opPad, op, r, closePad, rest, st);
  }

  lemma {:induction false} ReadsParenthesised(pad: string, l: Tree, opPad: string, op: Op, r: Tree, closePad: string,
                                              rest: string, st: St)
    requires Proper(l) && Proper(r) && AllSpace(pad) && AllSpace(opPad) && AllSpace(closePad) && st.Valid()
    ensures var c := Calc(Value(l), Value(r), OpCode(op), StatusAfter(r, StatusAfter(l, st.err)));
            && GetVal(pad + "(" + Spelled(l) + opPad + OpText(op) + Spelled(r) + closePad + ")" + rest, st)
               == Out(rest, c.0, St(st.regs, 0, c.1))
            && c.0 == Wrap(Ideal(op, Value(l), Value(r)))
    decreases Size(l) + Size(r), 2
  {
    hide GetVal, Eval, Calc, Ideal, Value, StatusAfter, Spelled, OpText;
    Starts(pad, '(', Spelled(l) + opPad + OpText(op) + Spelled(r) + closePad + ")", rest, st);
    Reassociate(pad, Spelled(l), opPad, OpText(op), Spelled(r), closePad, rest);
    Closes(closePad, rest);
    ReadsPair(l, opPad, op, r, closePad + ")" + rest, st);
    CalcIsIdeal(op, Value(l), Value(r), StatusAfter(r, StatusAfter(l, st.err)));
  }

  lemma Closes(closePad: string, rest: string)
    requires AllSpace(closePad)
    ensures Skip(closePad + ")" + rest) == ")" + rest && Head(")" + rest) == ')' && Tail(")" + rest) == rest
  {
    SkipPad(closePad, ")", rest);
    assert ")" + rest == [')'] + "" + rest && "" + rest == rest;
    Unprefix(')', "", rest);
  }

  lemma Reassociate(pad: string, l: string, opPad: string, op: string, r: string, closePad: string, rest: string)
    ensures pad + "(" + l + opPad + op + r + closePad + ")" + rest
              == pad + ['('] + (l + opPad + op + r + closePad + ")") + rest
    ensures l + opPad + op + r + closePad + ")" + rest == l + (opPad + (op + (r + (closePad + ")" + rest))))
  {
    assert pad + "(" + l + opPad + op + r + closePad + ")" == pad + ['('] + (l + opPad + op + r + closePad + ")");
  }

  lemma ReadsLit(pad: string, digits: string, rest: string, st: St)
    requires AllSpace(pad) && digits != "" && AllDigits(digits) && Decimal(digits) <= MAX && st.Valid()
    requires !IsDigit(Head(rest))
    ensures GetVal(pad + digits + rest, st) == Out(rest, Decimal(digits), st)
  {
    hide GetReg, Eval, Decimal;
    SkipPad(pad, digits, rest);
    SpanTakes(false, digits, rest);
    assert Head(digits + rest) == digits[0];
  }

  /** What a sign or an opening parenthesis leads to. */
  lemma Starts(pad: string, c: char, s: string, rest: string, st: St)
    requires AllSpace(pad) && st.Valid() && c in "-!("
    ensures var o := GetVal(s + rest, st);
            && (c == '-' ==> GetVal(pad + [c] + s + rest, st) == o.(v := Wrap(-o.v)))
            && (c == '!' ==> GetVal(pad + [c] + s + rest, st) == o.(v := Bool(o.v == 0)))
    ensures c == '(' ==>
              var o := Eval(-1, 0, IDENT, s + rest, st);
              GetVal(pad + [c] + s + rest, st) == Out(Tail(o.rest), o.v,
                  if Head(o.rest) != ')' then o.st.(err := BadExpr) else o.st)
  {
    hide GetReg, Eval, Decimal, Wrap;
    SkipPad(pad, [c] + s, rest);
    Unprefix(c, s, rest);
    assert pad + ([c] + s) + rest == pad + [c] + s + rest;
  }

  /** Two trees and the operator between them, up to a closing parenthesis or
      the end. */
  lemma {:induction false} ReadsPair(l: Tree, opPad: string, op: Op, r: Tree, rest: string, st: St)
    requires Proper(l) && Proper(r) && AllSpace(opPad) && st.Valid()
    requires Head(Skip(rest)) == ')' || Head(Skip(rest)) == '\0'
    ensures var c := Calc(Value(l), Value(r), OpCode(op), StatusAfter(r, StatusAfter(l, st.err)));
            Eval(-1, 0, IDENT, Spelled(l) + (opPad + (OpText(op) + (Spelled(r) + rest))), st) == Out(Skip(rest), c.0,
                St(st.regs, 0, c.1))
    decreases Size(l) + Size(r), 1
  {
    hide Calc, Precedence, GetOp, GetVal, Value, StatusAfter, Spelled, OpText, Skip, OpCode;
    var after := Spelled(r) + rest;
    var middle := opPad + (OpText(op) + after);
    TreeHead(r, rest);
    Middle(opPad, op, after);
    ReadsTree(l, middle, st);
    var s := St(st.regs, 0, StatusAfter(l, st.err));
    ReadsRight(Value(l), op, r, rest, s);
    IdentIsRight(Calc(Value(l), Value(r), OpCode(op), StatusAfter(r, StatusAfter(l, st.err))));
  }

  lemma Middle(opPad: string, op: Op, after: string)
    requires AllSpace(opPad) && Head(after) != '='
    ensures var middle := opPad + (OpText(op) + after);
            && !IsDigit(Head(middle)) && Skip(middle) == OpText(op) + after
            && OpText(op) + after != "" && Head(OpText(op) + after) != ')' && Head(OpText(op) + after) != '\0'
            && GetOp(OpText(op) + after) == (after, Some(OpCode(op))) && Precedence(OpCode(op)) > 0
  {
    OperatorReads(op, after);
    SkipSpaces(opPad, OpText(op) + after);
    assert Head(opPad + (OpText(op) + after)) == if opPad == "" then Head(OpText(op) + after) else opPad[0];
  }

  lemma {:induction false} ReadsRight(x: int, op: Op, r: Tree, rest: string, s: St)
    requires Int64(x) && Proper(r) && s.Valid() && s.save == 0
    requires Head(Skip(rest)) == ')' || Head(Skip(rest)) == '\0'
    ensures var c := Calc(x, Value(r), OpCode(op), StatusAfter(r, s.err));
            Eval(0, x, OpCode(op), Spelled(r) + rest, s) == Out(Skip(rest), c.0, St(s.regs, 0, c.1))
    decreases Size(r) + 1, 0
  {
    hide Calc, Precedence, GetOp, GetVal;
    SaveStaysZero(r);
    ReadsTree(r, rest, s);
  }

  lemma {:induction false} SaveStaysZero(e: Tree)
    ensures SaveAfter(e, 0) == 0
  {
    match e
    case Lit(_, _) =>
    case Neg(_, x) => SaveStaysZero(x);
    case Not(_, x) => SaveStaysZero(x);
    case Pair(_, _, _, _, _, _) =>
  }

  lemma IdentIsRight(c: (int, Status))
    requires Int64(c.0)
    ensures Calc(0, c.0, IDENT, c.1) == c && Precedence(IDENT) == 0
  {
  }

  lemma SkipPad(pad: string, s: string, rest: string)
    requires AllSpace(pad) && s != "" && !IsSpace(s[0])
    ensures Skip(pad + s + rest) == s + rest
  {
    SkipSpaces(pad, s + rest);
    assert pad + s + rest == pad + (s + rest);
  }

  lemma Unprefix(c: char, s: string, rest: string)
    ensures Head([c] + s + rest) == c && Tail([c] + s + rest) == s + rest
  {
  }

  // ---- whole expressions ----

  lemma Ends(pad: string)
    requires AllSpace(pad)
    ensures Skip(pad) == "" && !IsDigit(Head(pad))
  {
    SkipSpaces(pad, "");
    assert pad + "" == pad;
  }

  /** A tree and nothing else, white space aside: the wrapping value, all text
      consumed, registers untouched. */
  lemma EvaluatesTree(e: Tree, pad: string, regs: seq<int>, save: nat)
    requires Proper(e) && AllSpace(pad) && St(regs, save, Fine).Valid()
    ensures EvalExpr(Spelled(e) + pad, regs, save)
            == (StatusAfter(e, Fine), Value(e), St(regs, SaveAfter(e, save), StatusAfter(e, Fine)))
  {
    hide GetVal, Calc, StatusAfter, Value, SaveAfter, GetOp;
    Ends(pad);
    ReadsTree(e, pad, St(regs, save, Fine));
    IdentIsRight((Value(e), StatusAfter(e, Fine)));
  }

  /** The outermost operator needs no parentheses. */
  lemma EvaluatesPair(l: Tree, opPad: string, op: Op, r: Tree, pad: string, regs: seq<int>, save: nat)
    requires Proper(l) && Proper(r) && AllSpace(opPad) && AllSpace(pad) && St(regs, save, Fine).Valid()
    ensures var e := Pair("", l, opPad, op, r, "");
            EvalExpr(Spelled(l) + (opPad + (OpText(op) + (Spelled(r) + pad))), regs, save)
            == (StatusAfter(e, Fine), Value(e), St(regs, 0, StatusAfter(e, Fine)))
  {
    hide Eval, Calc, Spelled;
    Ends(pad);
    ReadsPair(l, opPad, op, r, pad, St(regs, save, Fine));
    CalcIsIdeal(op, Value(l), Value(r), StatusAfter(r, StatusAfter(l, Fine)));
  }

  // ---- the status ----

  lemma CalcStatus(op: Op, x: int, y: int, err: Status)
    requires Int64(x) && Int64(y)
    ensures Calc(x, y, OpCode(op), err).1 ==
            if Divides(op) && y == 0 then DivZero
            else if err.Fine? && Flags(x, y, OpCode(op)) then Overflow
            else err
  {
    hide Wrap, Quotient, Remainder;
  }

  lemma TimesMonotone(q: nat, b: nat, a: nat)
    requires q < b
    ensures q * a + a <= b * a
  {
    assert (b - q - 1) * a >= 0;
    assert b * a == q * a + a + (b - q - 1) * a;
  }

  lemma DivisionBounds(m: nat, a: nat)
    requires a >= 1
    ensures (m / a) * a <= m < (m / a) * a + a
  {
  }

  lemma SmallOverLarge(q: nat, b: nat)
    requires b >= 1
    ensures q / b == 0 <==> q < b
  {
    DivisionBounds(q, b);
  }

  lemma QuotientBelow(m: nat, a: nat, b: nat)
    requires a >= 1 && b >= 1
    ensures (m / a) / b == 0 <==> m < b * a
  {
    var q := m / a;
    DivisionBounds(m, a);
    SmallOverLarge(q, b);
    if q < b {
      TimesMonotone(q, b, a);
    } else if b < q {
      TimesMonotone(b, q, a);
    }
  }

  /** The signs and sizes of a product. */
  lemma ProductFlags(x: int, y: int)
    requires Int64(x) && Int64(y) && x != 0 && y != 0 && x != -1 && y != -1
    ensures Flags(x, y, Code('*')) <==> !Int64(x * y)
  {
    hide Wrap;
    hide Quotient;
    var a: nat, b: nat := Size64(y), Size64(x);
    var limit: nat := if (x > 0) == (y > 0) then MAX else -MIN;
    QuotientBelow(limit, a, b);
    SignedProduct(x, y);
    SignedQuotients(x, y);
  }

  /** The absolute value. */
  function Size64(x: int): (r: nat)
    ensures r >= 0
  {
    if x >= 0 then x else -x
  }

  lemma SignedProduct(x: int, y: int)
    ensures x * y == if (x >= 0) == (y >= 0) then Size64(x) * Size64(y) else -(Size64(x) * Size64(y))
    ensures Size64(x) * Size64(y) >= 0
  {
    var a: int, b: int := Size64(x), Size64(y);
    assert (-a) * b == -(a * b) && a * (-b) == -(a * b) && (-a) * (-b) == a * b;
  }

  lemma QuotientSize(x: int, y: int)
    requires y != 0
    ensures Quotient(x, y) == if (x >= 0) == (y > 0) then Size64(x) / Size64(y) else -(Size64(x) / Size64(y))
  {
  }

  lemma SignedQuotients(x: int, y: int)
    requires x != 0 && y != 0
    ensures (x > 0) == (y > 0) ==> (Quotient(Quotient(MAX, y), x) == 0 <==> (MAX / Size64(y)) / Size64(x) == 0)
    ensures (x > 0) != (y > 0) ==> (Quotient(Quotient(MIN, y), x) == 0 <==> (-MIN / Size64(y)) / Size64(x) == 0)
  {
    hide Quotient;
    var limit := if (x > 0) == (y > 0) then MAX else MIN;
    QuotientSize(limit, y);
    QuotientSize(Quotient(limit, y), x);
    NotNegative(Size64(limit), Size64(y));
    NotNegative(Size64(limit) / Size64(y), Size64(x));
  }

  lemma NotNegative(a: nat, b: nat)
    requires b >= 1
    ensures a / b >= 0
  {
  }

  /** The test before an operation foretells exactly the results that leave the
      range, slips apart. */
  lemma FlagsIff(op: Op, x: int, y: int)
    requires Int64(x) && Int64(y)
    ensures Flags(x, y, OpCode(op)) <==> !Int64(Ideal(op, x, y)) && !Slip(op, x, y)
    ensures Slip(op, x, y) ==> !Int64(Ideal(op, x, y))
  {
    if op.Times? {
      if x == 0 || y == 0 || x == -1 || y == -1 {
        assert x == 0 ==> x * y == 0;
        assert y == 0 ==> x * y == 0;
        assert x == -1 ==> x * y == -y;
        assert y == -1 ==> x * y == -x;
      } else {
        ProductFlags(x, y);
      }
    } else if Divides(op) && y != 0 {
      SmallQuotient(x, y);
    }
  }

  /** Only the least integer divided by -1 is too big a quotient. */
  lemma SmallQuotient(x: int, y: int)
    requires Int64(x) && Int64(y) && y != 0
    ensures Int64(Quotient(x, y)) <==> !(x == MIN && y == -1)
    ensures Int64(Remainder(x, y))
  {
    hide Quotient;
    var a, b := Size64(x), Size64(y);
    QuotientSize(x, y);
    DivisionBounds(a, b);
    SignedProduct(Quotient(x, y), y);
    Shrinks(a, b);
    if b == 1 {
      assert a / b == a;
    } else {
      Halves(a, b);
    }
  }

  lemma Halves(a: nat, b: nat)
    requires b >= 2
    ensures 2 * (a / b) <= a
  {
    Shrinks(a, b);
    assert (a / b) * b >= (a / b) * 2;
  }

  lemma Shrinks(a: nat, b: nat)
    requires b >= 1
    ensures 0 <= a / b <= a && 0 <= (a / b) * b <= a
  {
    var q := a / b;
    DivisionBounds(a, b);
    NotNegative(a, b);
    TimesMonotone(0, b, q);
    assert 0 * q + q == q && b * q == q * b;
  }

  /** One operation: the wrapping result, and a status that tells a zero divisor
      and every result out of range but the slips. */
  lemma CalcMeans(op: Op, x: int, y: int, err: Status)
    requires Int64(x) && Int64(y)
    ensures Calc(x, y, OpCode(op), err) == (Wrap(Ideal(op, x, y)), OperationStatus(op, x, y, err))
  {
    hide Calc, Flags, Ideal, Slip;
    CalcIsIdeal(op, x, y, err);
    CalcStatus(op, x, y, err);
    FlagsIff(op, x, y);
  }

  function OperationStatus(op: Op, x: int, y: int, err: Status): Status {
    if Divides(op) && y == 0 then DivZero
    else if err.Fine? && !Int64(Ideal(op, x, y)) && !Slip(op, x, y) then Overflow
    else err
  }

  /** The status of every expression: a division by zero before anything else,
      then an overflow the source notices. */
  lemma {:induction false} StatusIs(e: Tree, err: Status)
    requires Proper(e)
    ensures StatusAfter(e, err) ==
            if ZeroDivisor(e) then DivZero else if err.Fine? && Noticed(e) then Overflow else err
  {
    hide Calc, Value, Ideal, OpCode, Slip;
    match e
    case Lit(_, _) =>
    case Neg(_, x) => StatusIs(x, err);
    case Not(_, x) => StatusIs(x, err);
    case Pair(_, l, _, op, r, _) =>
      StatusIs(l, err);
      StatusIs(r, StatusAfter(l, err));
      CalcMeans(op, Value(l), Value(r), StatusAfter(r, StatusAfter(l, err)));
  }

  /** Division by zero is reported exactly when a divisor is zero. */
  lemma ZeroDivisorIff(e: Tree, err: Status)
    requires Proper(e)
    ensures StatusAfter(e, err).DivZero? <==> err.DivZero? || ZeroDivisor(e)
  {
    StatusIs(e, err);
  }

  lemma {:induction false} NoticedOrSlips(e: Tree)
    requires Proper(e)
    ensures Overflows(e) <==> Noticed(e) || Slips(e)
  {
    hide Ideal, Slip;
    match e
    case Lit(_, _) =>
    case Neg(_, x) => NoticedOrSlips(x);
    case Not(_, x) => NoticedOrSlips(x);
    case Pair(_, l, _, op, r, _) =>
      NoticedOrSlips(l);
      NoticedOrSlips(r);
      FlagsIff(op, Value(l), Value(r));
  }

  /** Without zero divisors the status is the right one, OK when every result is
      in range and OVERFLOW when one is not, exactly when nothing slips or some
      other overflow is noticed. */
  lemma OverflowIff(e: Tree)
    requires Proper(e) && !ZeroDivisor(e)
    ensures (StatusAfter(e, Fine) == if Overflows(e) then Overflow else Fine) <==> (!Slips(e) || Noticed(e))
  {
    hide StatusAfter, Overflows, Slips, Noticed;
    StatusIs(e, Fine);
    NoticedOrSlips(e);
  }

  /** Without overflow the value is the exact integer. */
  lemma {:induction false} ExactWithoutOverflow(e: Tree)
    requires Proper(e) && !Overflows(e)
    ensures Value(e) == Exact(e)
  {
    hide Ideal;
    match e
    case Lit(_, _) =>
    case Neg(_, x) => ExactWithoutOverflow(x);
    case Not(_, x) => ExactWithoutOverflow(x);
    case Pair(_, l, _, op, r, _) =>
      ExactWithoutOverflow(l);
      ExactWithoutOverflow(r);
  }

  /** A status of OK and no slip: the exact integer. */
  lemma FineIsExact(e: Tree)
    requires Proper(e) && StatusAfter(e, Fine).Fine? && !Slips(e)
    ensures Value(e) == Exact(e)
  {
    hide StatusAfter, Overflows, Slips, Noticed;
    StatusIs(e, Fine);
    NoticedOrSlips(e);
    ExactWithoutOverflow(e);
  }

  lemma SlipTurns(op: Op, x: int, y: int)
    requires Slip(op, x, y)
    ensures Ideal(op, x, y) == -MIN && Wrap(Ideal(op, x, y)) == MIN && !(Divides(op) && y == 0)
  {
  }

  /** A first slip is never right: the status stays OK and the value is wrong. */
  lemma FirstSlip(l: Tree, op: Op, r: Tree)
    requires Proper(l) && Proper(r) && !Overflows(l) && !Overflows(r) && !ZeroDivisor(l) && !ZeroDivisor(r)
    requires Slip(op, Value(l), Value(r))
    ensures var e := Pair("", l, "", op, r, "");
            StatusAfter(e, Fine).Fine? && Value(e) == MIN && Exact(e) == -MIN
  {
    hide StatusAfter, Ideal, Wrap, Quotient;
    StatusIs(Pair("", l, "", op, r, ""), Fine);
    NoticedOrSlips(l);
    NoticedOrSlips(r);
    ExactWithoutOverflow(l);
    ExactWithoutOverflow(r);
    SlipTurns(op, Value(l), Value(r));
  }

  /** The least integer slips through: 0 - (-9223372036854775807 - 1) is reported
      as fine and gives the least integer. */
  lemma LeastIntegerSlips()
    ensures var least := Pair("", Neg("", Lit("", ShowNat(MAX))), "", Minus, Lit("", ShowNat(1)), "");
            var e := Pair("", Lit("", ShowNat(0)), "", Minus, least, "");
            Proper(e) && StatusAfter(e, Fine).Fine? && Value(e) == MIN && Exact(e) == -MIN
  {
    hide Value, Exact, StatusAfter, Proper, ShowNat;
    var low := Neg("", Lit("", ShowNat(MAX)));
    Number(MAX);
    Number(1);
    Number(0);
    Difference(low, Lit("", ShowNat(1)));
    Difference(Lit("", ShowNat(0)), Pair("", low, "", Minus, Lit("", ShowNat(1)), ""));
  }

  lemma Number(n: int)
    requires 0 <= n <= MAX
    ensures var e := Lit("", ShowNat(n));
            && Proper(e) && Value(e) == n && Exact(e) == n && StatusAfter(e, Fine).Fine?
            && Proper(Neg("", e)) && Value(Neg("", e)) == -n && Exact(Neg("", e)) == -n
               && StatusAfter(Neg("", e), Fine).Fine?
  {
    DecimalShows(n);
  }

  lemma Difference(l: Tree, r: Tree)
    requires Proper(l) && Proper(r) && StatusAfter(l, Fine).Fine? && StatusAfter(r, Fine).Fine?
    ensures var e := Pair("", l, "", Minus, r, "");
            && Proper(e) && Value(e) == Wrap(Value(l) - Value(r)) && Exact(e) == Exact(l) - Exact(r)
            && (StatusAfter(e, Fine).Fine? <==> !Flags(Value(l), Value(r), Code('-')))
  {
    CalcStatus(Minus, Value(l), Value(r), Fine);
  }
}
