/** The expression evaluator ported from pMARS (src/asm.rs:350-626): operators
    are small codes, EQUAL's being the one that also means "none saved", unary
    operators bind to the next value only, and a..z are registers. */
module Evaluator {
  import opened Redcode
  import opened Text
  import opened Rng

  const MAX: int := 0x7FFF_FFFF_FFFF_FFFF
  const MIN: int := -0x8000_0000_0000_0000

  predicate Int64(x: int) {
    MIN <= x <= MAX
  }

  /** Two's complement, 64 bits wide. */
  function Wrap(x: int): (r: int)
    ensures Int64(r) && (Int64(x) ==> r == x)
  {
    (x + 0x8000_0000_0000_0000) % 0x1_0000_0000_0000_0000 - 0x8000_0000_0000_0000
  }

  // ---- operators and status ----

  /** The number of 64 bits that differs by a multiple of 2^64. */
  lemma WrapReads(x: int)
    ensures -0x8000_0000_0000_0000 <= Wrap(x) < 0x8000_0000_0000_0000
    ensures exists k :: x == Wrap(x) + k * 0x1_0000_0000_0000_0000
  {
    var y := x + 0x8000_0000_0000_0000;
    assert x == Wrap(x) + (y / 0x1_0000_0000_0000_0000) * 0x1_0000_0000_0000_0000;
  }

  const EQUAL: nat := 0
  const NEQU: nat := 1
  const GTE: nat := 2
  const LTE: nat := 3
  const AND: nat := 4
  const OR: nat := 5
  const IDENT: nat := 6

  datatype Status = Fine | Overflow | BadExpr | DivZero

  function Code(c: char): nat {
    c as int
  }

  function Precedence(op: nat): int {
    if op == Code('*') || op == Code('/') || op == Code('%') then 5
    else if op == Code('+') || op == Code('-') then 4
    else if op == Code('>') || op == Code('<') || op == EQUAL || op == NEQU || op == GTE || op == LTE then 3
    else if op == AND then 2
    else if op == OR then 1
    else 0
  }

  function Bool(b: bool): int {
    if b then 1 else 0
  }

  /** Division and remainder rounding toward zero; the divisor is not zero. */
  function Quotient(x: int, y: int): int
    requires y != 0
  {
    if y > 0 then TruncDiv(x, y) else -TruncDiv(x, -y)
  }

  function Remainder(x: int, y: int): int
    requires y != 0
  {
    x - Quotient(x, y) * y
  }

  /** The remainder has the sign of the dividend and is less than the divisor. */
  lemma DivisionReads(x: int, y: int)
    requires y != 0
    ensures x == Quotient(x, y) * y + Remainder(x, y)
    ensures (x >= 0 ==> Remainder(x, y) >= 0) && (x <= 0 ==> Remainder(x, y) <= 0)
    ensures -(if y < 0 then -y else y) < Remainder(x, y) < if y < 0 then -y else y
  {
    hide Quotient;
    var a, n := if x < 0 then -x else x, if y < 0 then -y else y;
    SignedQuotient(x, y, a, n);
    Euclid(a, n, a / n);
    Leaves(x, y, Quotient(x, y), a / n, a, n);
  }

  lemma Leaves(x: int, y: int, t: int, q: int, a: int, n: int)
    requires a == (if x < 0 then -x else x) && n == (if y < 0 then -y else y) && 0 <= a - q * n < n
    requires t == if (x < 0) == (y < 0) then q else -q
    ensures var r := x - t * y; -n < r < n && (x >= 0 ==> r >= 0) && (x <= 0 ==> r <= 0)
  {
    Product(x, y, q, n);
  }

  lemma SignedQuotient(x: int, y: int, a: int, n: int)
    requires y != 0 && a == (if x < 0 then -x else x) && n == if y < 0 then -y else y
    ensures Quotient(x, y) == if (x < 0) == (y < 0) then a / n else -(a / n)
  {
  }

  lemma Product(x: int, y: int, q: int, n: int)
    requires n == if y < 0 then -y else y
    ensures (if (x < 0) == (y < 0) then q else -q) * y == if x < 0 then -(q * n) else q * n
  {
    Signs(q, n);
  }

  lemma Euclid(a: nat, n: nat, q: int)
    requires n > 0 && q == a / n
    ensures 0 <= a - q * n < n
  {
  }

  lemma Signs(q: int, n: int)
    ensures (-q) * n == -(q * n) && q * (-n) == -(q * n) && (-q) * (-n) == q * n
  {
  }

  /** The source's own test before an addition, subtraction or product. */
  predicate Flags(x: int, y: int, op: nat) {
    if op == Code('+') then
      if x > 0 then y > 0 && x > MAX - y else y < 0 && x < MIN - y
    else if op == Code('-') then
      if x > 0 then y < 0 && x > Wrap(MAX + y) else y > 0 && x < Wrap(MIN + y)
    else if op == Code('*') then
      x != 0 && y != 0 && x != -1 && y != -1
      && if (x > 0) == (y > 0) then Quotient(Quotient(MAX, y), x) == 0 else Quotient(Quotient(MIN, y), x) == 0
    else false
  }

  /** `calc`: the result, and the status after it. */
  function Calc(x: int, y: int, op: nat, err: Status): (r: (int, Status))
    requires Int64(x) && Int64(y)
    ensures Int64(r.0)
  {
    var warned := if err.Fine? && Flags(x, y, op) then Overflow else err;
    if op == Code('+') then (Wrap(x + y), warned)
    else if op == Code('-') then (Wrap(x - y), warned)
    else if op == Code('*') then (Wrap(x * y), warned)
    else if op == Code('/') then if y == 0 then (0, DivZero) else (Wrap(Quotient(x, y)), err)
    else if op == Code('%') then if y == 0 then (0, DivZero) else (Wrap(Remainder(x, y)), err)
    else if op == AND then (Bool(x != 0 && y != 0), err)
    else if op == OR then (Bool(x != 0 || y != 0), err)
    else if op == EQUAL then (Bool(x == y), err)
    else if op == NEQU then (Bool(x != y), err)
    else if op == Code('<') then (Bool(x < y), err)
    else if op == Code('>') then (Bool(x > y), err)
    else if op == LTE then (Bool(x <= y), err)
    else if op == GTE then (Bool(x >= y), err)
    else if op == IDENT then (y, err)
    else (0, BadExpr)
  }

  // ---- evaluation ----

  /** Registers a..z, the saved operator, the status so far. */
  datatype St = St(regs: seq<int>, save: nat, err: Status)
  {
    predicate Valid() {
      |regs| == 26 && forall i :: 0 <= i < 26 ==> Int64(regs[i])
    }
  }

  /** What is left of the text, the value, the state. */
  datatype Out = Out(rest: string, v: int, st: St)

  predicate Good(o: Out, t: string) {
    |o.rest| <= |t| && Int64(o.v) && o.st.Valid()
  }

  /** The operator at the front of a text that is not at its end; none where C
      would leave it unset. */
  function GetOp(t: string): (r: (string, Option<nat>))
    requires t != ""
    ensures |r.0| < |t|
  {
    var c, u := t[0], t[1..];
    if c == '&' then (Tail(u), if Head(u) == '&' then Some(AND) else None)
    else if c == '|' then (Tail(u), if Head(u) == '|' then Some(OR) else None)
    else if c == '=' then (Tail(u), if Head(u) == '=' then Some(EQUAL) else None)
    else if c == '!' then (Tail(u), if Head(u) == '=' then Some(NEQU) else None)
    else if c == '<' then if Head(u) == '=' then (Tail(u), Some(LTE)) else (u, Some(Code('<')))
    else if c == '>' then if Head(u) == '=' then (Tail(u), Some(GTE)) else (u, Some(Code('>')))
    else (u, Some(Code(c)))
  }

  function Register(c: char): (r: nat)
    requires IsAlpha(c)
    ensures r < 26
  {
    UpperChar(c) as int - 'A' as int
  }

  function GetReg(t: string, reg: nat, st: St): (o: Out)
    requires reg < 26 && st.Valid()
    ensures Good(o, t)
    decreases |t|, 2
  {
    var u := Skip(t);
    if Head(u) == '=' && Head(Tail(u)) != '=' then
      var o := Eval(-1, 0, IDENT, Tail(u), st);
      o.(st := o.st.(regs := o.st.regs[reg := o.v]))
    else Out(u, st.regs[reg], st)
  }

  function GetVal(t: string, st: St): (o: Out)
    requires st.Valid()
    ensures Good(o, t)
    decreases |t|, 0
  {
    var u := Skip(t);
    var c := Head(u);
    if c == '(' then
      var o := Eval(-1, 0, IDENT, Tail(u), st);
      Out(Tail(o.rest), o.v, if Head(o.rest) != ')' then o.st.(err := BadExpr) else o.st)
    else if c == '-' then
      var o := GetVal(Tail(u), st);
      o.(v := Wrap(-o.v))
    else if c == '!' then
      var o := GetVal(Tail(u), st);
      o.(v := Bool(o.v == 0))
    else if c == '+' then GetVal(Tail(u), st)
    else if IsAlpha(c) then GetReg(Tail(u), Register(c), st)
    else
      var (digits, rest) := Span(false, u);
      if digits == "" then Out(u, 0, st.(err := BadExpr))
      else
        DigitsSpanned(u);
        if Decimal(digits) > MAX then Out(rest, 0, st.(err := BadExpr)) else Out(rest, Decimal(digits), st)
  }

  lemma {:induction false} DigitsSpanned(t: string)
    ensures AllDigits(Span(false, t).0)
  {
    if t != "" && IsDigit(t[0]) {
      DigitsSpanned(t[1..]);
    }
  }

  function Eval(prev: int, val1: int, oper1: nat, t: string, st: St): (o: Out)
    requires st.Valid() && Int64(val1)
    ensures Good(o, t)
    decreases |t|, 1
  {
    var a := GetVal(t, st);
    var u := Skip(a.rest);
    if Head(u) == ')' || Head(u) == '\0' then
      var c := Calc(val1, a.v, oper1, a.st.err);
      Out(u, c.0, a.st.(err := c.1))
    else
      var (u2, got) := GetOp(u);
      if got.None? then Out("", 0, a.st.(err := BadExpr))
      else
        var oper2 := got.value;
        var s := a.st.(save := 0);
        var prec1, prec2 := Precedence(oper1), Precedence(oper2);
        if prec1 >= prec2 then
          var c := Calc(val1, a.v, oper1, s.err);
          var s2 := s.(err := c.1);
          if prec2 >= prev || prec1 <= prev then Eval(prec1, c.0, oper2, u2, s2)
          else Out(u2, c.0, s2.(save := oper2))
        else
          var b := Eval(prec1, a.v, oper2, u2, s);
          var c := Calc(val1, b.v, oper1, b.st.err);
          var s2 := b.st.(err := c.1);
          if s2.save != 0 && Precedence(s2.save) >= prev then
            var d := Eval(prec2, c.0, s2.save, b.rest, s2);
            d.(st := d.st.(save := 0))
          else Out(b.rest, c.0, s2)
  }

  /** `eval_expr`: the status, the value, and the registers and saved operator
      it leaves. */
  function EvalExpr(t: string, regs: seq<int>, save: nat): (r: (Status, int, St))
    requires St(regs, save, Fine).Valid()
    ensures Int64(r.1) && r.2.Valid()
  {
    var o := Eval(-1, 0, IDENT, t, St(regs, save, Fine));
    var st := if Head(o.rest) != '\0' then o.st.(err := BadExpr) else o.st;
    (st.err, o.v, st)
  }
}
