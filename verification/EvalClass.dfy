/** The evaluator as the source runs it: over a buffer and an index, with the
    registers, the saved operator and the status updated in place
    (src/asm.rs:373-626). */
module EvaluatorEngine {
  import opened Redcode
  import opened Text
  import opened Evaluator
  import E = Expressions

  class Evaluation {
    const s: string
    var regs: seq<int>
    var saveOper: nat
    var err: Status

    constructor (s: string, regs: seq<int>, saveOper: nat)
      ensures this.s == s && this.regs == regs && this.saveOper == saveOper && err == Fine
    {
      this.s := s;
      this.regs := regs;
      this.saveOper := saveOper;
      err := Fine;
    }

    ghost function State(): St
      reads this
    {
      St(regs, saveOper, err)
    }

    /** The text from `i` on. */
    ghost function Rest(i: nat): string {
      if i <= |s| then s[i..] else ""
    }

    function C(i: nat): (c: char)
      ensures c == Head(Rest(i)) && Rest(i + 1) == Tail(Rest(i))
    {
      if i < |s| then s[i] else '\0'
    }

    method SkipAt(i: nat) returns (j: nat)
      ensures j >= i && Rest(j) == Skip(Rest(i))
    {
      j := i;
      while IsSpace(C(j))
        invariant j >= i && Skip(Rest(j)) == Skip(Rest(i))
        decreases |s| - j
      {
        assert Rest(j) != "" && Rest(j)[1..] == Rest(j + 1);
        j := j + 1;
      }
    }

    /** An operation of the language gives its result wrapped to 64 bits; a zero
        divisor is told, and so is a result out of range unless it slips. */
    method Calculate(x: int, y: int, op: nat) returns (v: int)
      requires Int64(x) && Int64(y)
      modifies this`err
      ensures (v, err) == Calc(x, y, op, old(err))
      ensures forall o: E.Op :: op == E.OpCode(o) ==>
                v == Wrap(E.Ideal(o, x, y)) && err == E.OperationStatus(o, x, y, old(err))
    {
      hide E.Ideal, E.OperationStatus, E.OpCode;
      forall o: E.Op | op == E.OpCode(o)
        ensures Calc(x, y, op, err) == (Wrap(E.Ideal(o, x, y)), E.OperationStatus(o, x, y, err))
      {
        E.CalcMeans(o, x, y, err);
      }
      if op == Code('+') {
        if err == Fine && if x > 0 then y > 0 && x > MAX - y else y < 0 && x < MIN - y {
          err := Overflow;
        }
        v := Wrap(x + y);
      } else if op == Code('-') {
        if err == Fine && if x > 0 then y < 0 && x > Wrap(MAX + y) else y > 0 && x < Wrap(MIN + y) {
          err := Overflow;
        }
        v := Wrap(x - y);
      } else if op == Code('/') || op == Code('%') {
        if y == 0 {
          err := DivZero;
          v := 0;
        } else {
          v := if op == Code('/') then Wrap(Quotient(x, y)) else Wrap(Remainder(x, y));
        }
      } else if op == Code('*') {
        if err == Fine && x != 0 && y != 0 && x != -1 && y != -1
           && if (x > 0) == (y > 0) then Quotient(Quotient(MAX, y), x) == 0 else Quotient(Quotient(MIN, y), x) == 0 {
          err := Overflow;
        }
        v := Wrap(x * y);
      } else if op == AND {
        v := Bool(x != 0 && y != 0);
      } else if op == OR {
        v := Bool(x != 0 || y != 0);
      } else if op == EQUAL {
        v := Bool(x == y);
      } else if op == NEQU {
        v := Bool(x != y);
      } else if op == Code('<') {
        v := Bool(x < y);
      } else if op == Code('>') {
        v := Bool(x > y);
      } else if op == LTE {
        v := Bool(x <= y);
      } else if op == GTE {
        v := Bool(x >= y);
      } else if op == IDENT {
        v := y;
      } else {
        err := BadExpr;
        v := 0;
      }
    }

    method Operator(i: nat) returns (j: nat, op: Option<nat>)
      requires Rest(i) != ""
      ensures j > i && (Rest(j), op) == GetOp(Rest(i))
    {
      var c, n := C(i), C(i + 1);
      if c == '&' {
        return i + 2, if n == '&' then Some(AND) else None;
      } else if c == '|' {
        return i + 2, if n == '|' then Some(OR) else None;
      } else if c == '=' {
        return i + 2, if n == '=' then Some(EQUAL) else None;
      } else if c == '!' {
        return i + 2, if n == '=' then Some(NEQU) else None;
      } else if c == '<' {
        if n == '=' {
          return i + 2, Some(LTE);
        }
        return i + 1, Some(Code('<'));
      } else if c == '>' {
        if n == '=' {
          return i + 2, Some(GTE);
        }
        return i + 1, Some(Code('>'));
      }
      return i + 1, Some(Code(c));
    }

    /** What a step from `i` returned, against the function of the text. */
    ghost predicate Matches(o: Out, j: nat, v: int)
      reads this
    {
      Rest(j) == o.rest && v == o.v && State() == o.st
    }

    method GetRegister(i: nat, reg: nat) returns (j: nat, v: int)
      requires reg < 26 && State().Valid()
      modifies this
      ensures Matches(old(GetReg(Rest(i), reg, State())), j, v) && Int64(v) && State().Valid()
      decreases |Rest(i)|, 2
    {
      var k := SkipAt(i);
      if C(k) == '=' && C(k + 1) != '=' {
        j, v := Evaluate(-1, 0, IDENT, k + 1);
        regs := regs[reg := v];
      } else {
        j, v := k, regs[reg];
      }
    }

    method GetValue(i: nat) returns (j: nat, v: int)
      requires State().Valid()
      modifies this
      ensures Matches(old(GetVal(Rest(i), State())), j, v) && Int64(v) && State().Valid()
      decreases |Rest(i)|, 0
    {
      hide Eval, GetReg, GetVal, Skip, Rest;
      var k := SkipAt(i);
      var c := C(k);
      ValueStarts(Rest(i), State());
      if c == '(' {
        j, v := Evaluate(-1, 0, IDENT, k + 1);
        if C(j) != ')' {
          err := BadExpr;
        }
        j := j + 1;
      } else if c == '-' {
        j, v := GetValue(k + 1);
        v := Wrap(-v);
      } else if c == '!' {
        j, v := GetValue(k + 1);
        v := Bool(v == 0);
      } else if c == '+' {
        j, v := GetValue(k + 1);
      } else if IsAlpha(c) {
        j, v := GetRegister(k + 1, Register(c));
      } else {
        j, v := Literal(k);
      }
    }

    method Literal(k: nat) returns (j: nat, v: int)
      requires State().Valid() && !IsAlpha(C(k)) && C(k) !in "(-!+" && !IsSpace(C(k))
      modifies this`err
      ensures Matches(old(GetVal(Rest(k), State())), j, v) && Int64(v) && State().Valid()
    {
      hide Eval, GetReg;
      j := DigitsEnd(k);
      DigitsSpanned(Rest(k));
      if j == k {
        err := BadExpr;
        return j, 0;
      }
      var digits := s[k..j];
      if Decimal(digits) > MAX {
        err := BadExpr;
        v := 0;
      } else {
        v := Decimal(digits);
      }
    }

    method DigitsEnd(k: nat) returns (j: nat)
      ensures var p := Span(false, Rest(k));
              j == k + |p.0| && Rest(j) == p.1 && (j > k ==> j <= |s| && s[k..j] == p.0)
    {
      hide Span, Rest;
      ghost var p := Span(false, Rest(k));
      j := k;
      while IsDigit(C(j))
        invariant j >= k && Span(false, Rest(j)).1 == p.1 && |Span(false, Rest(j)).0| + (j - k) == |p.0|
        decreases |s| - j
      {
        SpanStep(Rest(j));
        j := j + 1;
      }
      SpanStep(Rest(j));
      Digits(k, p.0, p.1);
    }

    lemma NothingLeft()
      ensures Rest(|s|) == ""
    {
    }

    lemma Digits(k: nat, x: string, y: string)
      requires x + y == Rest(k)
      ensures x != "" ==> k + |x| <= |s| && s[k..k + |x|] == x
    {
      if x != "" {
        assert (x + y)[..|x|] == x;
        assert s[k..][..|x|] == s[k..k + |x|];
      }
    }

    method Evaluate(prev: int, val1: int, oper1: nat, i: nat) returns (j: nat, v: int)
      requires State().Valid() && Int64(val1)
      modifies this
      ensures Matches(old(Eval(prev, val1, oper1, Rest(i), State())), j, v) && Int64(v) && State().Valid()
      decreases |Rest(i)|, 1
    {
      hide GetVal, Calc, GetOp, Precedence, Rest, Skip;
      NothingLeft();
      var k, val2 := GetValue(i);
      k := SkipAt(k);
      if C(k) == ')' || C(k) == '\0' {
        v := Calculate(val1, val2, oper1);
        return k, v;
      }
      var k2, got := Operator(k);
      if got.None? {
        err := BadExpr;
        return |s|, 0;
      }
      var oper2 := got.value;
      saveOper := 0;
      var prec1, prec2 := Precedence(oper1), Precedence(oper2);
      if prec1 >= prec2 {
        var r := Calculate(val1, val2, oper1);
        if prec2 >= prev || prec1 <= prev {
          j, v := Evaluate(prec1, r, oper2, k2);
        } else {
          saveOper := oper2;
          j, v := k2, r;
        }
      } else {
        var r2;
        j, r2 := Evaluate(prec1, val2, oper2, k2);
        v := Calculate(val1, r2, oper1);
        var so := saveOper;
        if so != 0 && Precedence(so) >= prev {
          j, v := Evaluate(prec2, v, so, j);
          saveOper := 0;
        }
      }
    }
  }

  /** What the character after the white space leads to. */
  lemma ValueStarts(t: string, st: St)
    requires st.Valid()
    ensures var u := Skip(t);
            && !IsSpace(Head(u)) && |u| <= |t| && (Head(u) != '\0' ==> |Tail(u)| < |t|)
            && GetVal(t, st) ==
               if Head(u) == '(' then
                 var o := Eval(-1, 0, IDENT, Tail(u), st);
                 Out(Tail(o.rest), o.v, if Head(o.rest) != ')' then o.st.(err := BadExpr) else o.st)
               else if Head(u) == '-' then var o := GetVal(Tail(u), st); o.(v := Wrap(-o.v))
               else if Head(u) == '!' then var o := GetVal(Tail(u), st); o.(v := Bool(o.v == 0))
               else if Head(u) == '+' then GetVal(Tail(u), st)
               else if IsAlpha(Head(u)) then GetReg(Tail(u), Register(Head(u)), st)
               else GetVal(u, st)
  {
    hide GetVal, Skip, Eval, GetReg, Wrap, Register;
    SkipTwice(t);
    SignStarts(t, st);
    OtherStarts(t, st);
  }

  lemma SignStarts(t: string, st: St)
    requires st.Valid()
    ensures var u := Skip(t);
            && (Head(u) == '(' ==>
                  var o := Eval(-1, 0, IDENT, Tail(u), st);
                  GetVal(t, st) == Out(Tail(o.rest), o.v, if Head(o.rest) != ')' then o.st.(err := BadExpr) else o.st))
            && (Head(u) == '-' ==> var o := GetVal(Tail(u), st); GetVal(t, st) == o.(v := Wrap(-o.v)))
            && (Head(u) == '!' ==> var o := GetVal(Tail(u), st); GetVal(t, st) == o.(v := Bool(o.v == 0)))
            && (Head(u) == '+' ==> GetVal(t, st) == GetVal(Tail(u), st))
  {
    hide Skip, Eval, GetReg, Decimal, Wrap, Span;
  }

  lemma OtherStarts(t: string, st: St)
    requires st.Valid()
    ensures var u := Skip(t);
            Head(u) !in "(-!+" ==> GetVal(t, st) == if IsAlpha(Head(u)) then GetReg(Tail(u), Register(Head(u)), st)
                else GetVal(u, st)
  {
    hide Skip, Eval, GetReg, Decimal, Wrap, Span, Register;
    SkipTwice(t);
  }

  lemma {:induction false} SkipTwice(t: string)
    ensures Skip(Skip(t)) == Skip(t) && !IsSpace(Head(Skip(t)))
  {
    if t != "" && IsSpace(t[0]) {
      SkipTwice(t[1..]);
    }
  }

  lemma SpanStep(t: string)
    ensures if IsDigit(Head(t)) then Span(false, t).1 == Span(false, Tail(t)).1
              && |Span(false, t).0| == 1 + |Span(false, Tail(t)).0|
            else Span(false, t) == ("", t)
  {
  }

  /** `eval_expr`. */
  method EvaluateExpression(t: string, regs: seq<int>, saveOper: nat) returns (status: Status, v: int, st: St)
    requires St(regs, saveOper, Fine).Valid()
    ensures (status, v, st) == EvalExpr(t, regs, saveOper)
  {
    var e := new Evaluation(t, regs, saveOper);
    assert e.Rest(0) == t;
    var i;
    i, v := e.Evaluate(-1, 0, IDENT, 0);
    if e.C(i) != '\0' {
      e.err := BadExpr;
    }
    status, st := e.err, St(e.regs, e.saveOper, e.err);
  }
}
