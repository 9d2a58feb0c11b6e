/** Characters, decimal numbers and tokens of the assembler (src/asm.rs,
    `at`, `is_space`, `get_token`). A text is read from the front: what the
    source addresses as a buffer and an index is here the rest of the buffer. */
module Text {

  /** The next character; NUL at the end. */
  function Head(t: string): char {
    if t == "" then '\0' else t[0]
  }

  function Tail(t: string): string {
    if t == "" then "" else t[1..]
  }

  predicate IsSpace(c: char) {
    c == ' ' || c == '\t' || c == '\n' || c as int == 11 || c as int == 12 || c == '\r'
  }

  predicate IsDigit(c: char) {
    '0' <= c <= '9'
  }

  predicate IsAlpha(c: char) {
    'a' <= c <= 'z' || 'A' <= c <= 'Z'
  }

  predicate IsWord(c: char) {
    IsAlpha(c) || IsDigit(c) || c == '_'
  }

  function UpperChar(c: char): char {
    if 'a' <= c <= 'z' then (c as int - 32) as char else c
  }

  function Upper(s: string): (r: string)
    ensures |r| == |s|
  {
    seq(|s|, i requires 0 <= i < |s| => UpperChar(s[i]))
  }

  predicate AllSpace(s: string) {
    forall i :: 0 <= i < |s| ==> IsSpace(s[i])
  }

  predicate AllDigits(s: string) {
    forall i :: 0 <= i < |s| ==> IsDigit(s[i])
  }

  predicate AllWord(s: string) {
    forall i :: 0 <= i < |s| ==> IsWord(s[i])
  }

  /** Past leading white space. */
  function Skip(t: string): (r: string)
    ensures |r| <= |t| && !IsSpace(Head(r))
    ensures !IsSpace(Head(t)) ==> r == t
  {
    if t != "" && IsSpace(t[0]) then Skip(t[1..]) else t
  }

  lemma {:induction false} SkipSpaces(pad: string, t: string)
    requires AllSpace(pad)
    ensures Skip(pad + t) == Skip(t)
  {
    if pad == "" {
      assert pad + t == t;
    } else {
      assert (pad + t)[1..] == pad[1..] + t;
      SkipSpaces(pad[1..], t);
    }
  }

  /** The leading characters that satisfy a class, and the rest. */
  function Span(word: bool, t: string): (r: (string, string))
    ensures r.0 + r.1 == t && |r.0| + |r.1| == |t|
  {
    if t != "" && (if word then IsWord(t[0]) else IsDigit(t[0])) then
      var p := Span(word, t[1..]);
      assert [t[0]] + p.0 + p.1 == t;
      ([t[0]] + p.0, p.1)
    else ("", t)
  }

  lemma {:induction false} SpanTakes(word: bool, x: string, t: string)
    requires if word then AllWord(x) && !IsWord(Head(t)) else AllDigits(x) && !IsDigit(Head(t))
    ensures Span(word, x + t) == (x, t)
  {
    if x == "" {
      assert x + t == t;
    } else {
      assert (x + t)[1..] == x[1..] + t;
      SpanTakes(word, x[1..], t);
      assert [x[0]] + x[1..] == x;
    }
  }

  // ---- decimal numbers ----

  function DigitValue(c: char): nat
    requires IsDigit(c)
  {
    c as int - '0' as int
  }

  /** The number a string of digits spells. */
  function Decimal(s: string): nat
    requires AllDigits(s)
  {
    if s == "" then 0 else 10 * Decimal(s[..|s| - 1]) + DigitValue(s[|s| - 1])
  }

  function Digit(d: nat): char
    requires d < 10
  {
    ('0' as int + d) as char
  }

  function ShowNat(n: nat): (s: string)
    ensures s != "" && AllDigits(s)
  {
    if n < 10 then [Digit(n)] else ShowNat(n / 10) + [Digit(n % 10)]
  }

  function ShowInt(n: int): string {
    if n < 0 then "-" + ShowNat(-n) else ShowNat(n)
  }

  /** At least two digits, as FOR counters are shown. */
  function ShowTwo(n: nat): string {
    if n < 10 then "0" + ShowNat(n) else ShowNat(n)
  }

  lemma {:induction false} DecimalShows(n: nat)
    ensures Decimal(ShowNat(n)) == n
  {
    if n >= 10 {
      DecimalShows(n / 10);
      var s := ShowNat(n);
      assert s[..|s| - 1] == ShowNat(n / 10);
    } else {
      assert ShowNat(n)[..0] == "";
    }
  }

  /** The power of ten. */
  function Ten(k: nat): nat {
    if k == 0 then 1 else 10 * Ten(k - 1)
  }

  lemma {:induction false} ShowNatIsShort(n: nat, k: nat)
    requires k >= 1 && n < Ten(k)
    ensures |ShowNat(n)| <= k
  {
    if n >= 10 {
      ShowNatIsShort(n / 10, k - 1);
    }
  }

  // ---- tokens ----

  datatype Kind = End | Numb | Char | Expr | Addr | Apnd | Comm | Fsep | Modf | Misc

  datatype Token = Token(kind: Kind, text: string)

  predicate IsExprSym(c: char) {
    c in "()/+-%!="
  }

  predicate IsAddrSym(c: char) {
    c in "#$@<>*{}"
  }

  /** The first token after white space, and what follows it. */
  function GetToken(t: string): (r: (Token, string))
    ensures |r.1| <= |t|
    ensures r.0.kind.End? <==> Head(Skip(t)) == '\0'
    ensures !r.0.kind.End? ==> |r.1| < |t| && r.0.text != ""
    ensures r.0.kind.End? ==> r.0.text == ""
  {
    var s := Skip(t);
    var c := Head(s);
    if c == '\0' then (Token(End, ""), s)
    else if IsDigit(c) then
      var (x, rest) := Span(false, s);
      assert x != "";
      (Token(Numb, x), rest)
    else if IsAlpha(c) || c == '_' then
      var (x, rest) := Span(true, s);
      assert x != "";
      (Token(Char, x), rest)
    else if IsExprSym(c) then (Token(Expr, [c]), s[1..])
    else if IsAddrSym(c) then (Token(Addr, [c]), s[1..])
    else if c == '&' || c == '|' then
      if Head(s[1..]) == c then (Token(Expr, [c, c]), s[2..])
      else (Token(if c == '&' then Apnd else Misc, [c]), s[1..])
    else if c == ';' then (Token(Comm, [c]), s[1..])
    else if c == ',' then (Token(Fsep, [c]), s[1..])
    else if c == '.' then (Token(Modf, [c]), s[1..])
    else (Token(Misc, [c]), s[1..])
  }

  /** A number in at least two digits. */
  lemma TwoDigits(n: nat)
    ensures AllDigits(ShowTwo(n)) && Decimal(ShowTwo(n)) == n
    ensures |ShowTwo(n)| >= 2 && (n >= 10 ==> ShowTwo(n)[0] != '0')
  {
    DecimalShows(n);
    DecimalReads("0", ShowNat(n));
    if n >= 10 {
      NoLeadingZero(n);
    }
  }

  lemma {:induction false} NoLeadingZero(n: nat)
    requires n >= 1
    ensures ShowNat(n)[0] != '0' && (n >= 10 ==> |ShowNat(n)| >= 2)
  {
    if n >= 10 {
      NoLeadingZero(n / 10);
    }
  }

  /** Which character begins which kind of token. */
  lemma TokenKinds(t: string)
    ensures var k, c, next := GetToken(t).0.kind, Head(Skip(t)), Head(Tail(Skip(t)));
            && (k.End? <==> c == '\0')
            && (k.Numb? <==> '0' <= c <= '9')
            && (k.Char? <==> 'a' <= c <= 'z' || 'A' <= c <= 'Z' || c == '_')
            && (k.Expr? <==> c in {'(', ')', '/', '+', '-', '%', '!', '='} || (c in {'&', '|'} && next == c))
            && (k.Addr? <==> c in {'#', '$', '@', '<', '>', '*', '{', '}'})
            && (k.Apnd? <==> c == '&' && next != '&')
            && (k.Comm? <==> c == ';') && (k.Fsep? <==> c == ',') && (k.Modf? <==> c == '.')
  {
    hide Skip, Span;
  }

  /** White space is blanks, tabs and the ends of lines and pages. */
  lemma {:induction false} SkipReads(t: string)
    ensures var n := |t| - |Skip(t)|;
            && 0 <= n && t[n..] == Skip(t)
            && (forall i :: 0 <= i < n ==> t[i] as int in {32, 9, 10, 11, 12, 13})
            && Head(Skip(t)) as int !in {32, 9, 10, 11, 12, 13}
  {
    if t != "" && IsSpace(t[0]) {
      SkipReads(t[1..]);
    }
  }

  /** Digits count in tens. */
  lemma {:induction false} DecimalReads(x: string, y: string)
    requires AllDigits(x) && AllDigits(y)
    ensures AllDigits(x + y) && Decimal(x + y) == Decimal(x) * Ten(|y|) + Decimal(y)
    ensures |y| == 1 ==> Decimal(y) == y[0] as int - '0' as int && Ten(|y|) == 10
  {
    if y == "" {
      assert x + y == x;
    } else {
      var init := y[..|y| - 1];
      DecimalReads(x, init);
      assert (x + y)[..|x + y| - 1] == x + init;
      TenTimes(Decimal(x), |init|);
    }
  }

  lemma TenTimes(x: nat, k: nat)
    ensures x * Ten(k + 1) == 10 * (x * Ten(k))
  {
  }

  /** Words are of letters, digits and underscores. */
  predicate InWords(c: char) {
    'a' <= c <= 'z' || 'A' <= c <= 'Z' || '0' <= c <= '9' || c == '_'
  }

  /** Small letters become large ones, nothing else changes. */
  lemma UpperReads(s: string)
    ensures |Upper(s)| == |s|
    ensures forall i :: 0 <= i < |s| ==>
      Upper(s)[i] == if 'a' <= s[i] <= 'z' then (s[i] as int - 'a' as int + 'A' as int) as char else s[i]
  {
  }

  /** What a token is: past white space, the text that is left begins with it; a
      number is a whole run of digits, a word a whole run of word characters that
      does not begin with a digit, anything else one symbol or two alike; and its
      kind is that of its first character. */
  lemma TokenReads(t: string)
    ensures var (tok, rest) := GetToken(t);
            var c := Head(tok.text);
            && Skip(t) == tok.text + rest
            && (tok.kind.Numb? <==> IsDigit(c)) && (tok.kind.Char? <==> IsAlpha(c) || c == '_')
    ensures var (tok, rest) := GetToken(t);
            match tok.kind
            case End => Head(Skip(t)) == '\0'
            case Numb => (forall i :: 0 <= i < |tok.text| ==> '0' <= tok.text[i] <= '9') && !('0' <= Head(rest) <= '9')
            case Char => (forall i :: 0 <= i < |tok.text| ==> InWords(tok.text[i])) && !InWords(Head(rest))
            case Expr => (|tok.text| == 1 && IsExprSym(tok.text[0])) || tok.text == "&&" || tok.text == "||"
            case Addr => |tok.text| == 1 && IsAddrSym(tok.text[0])
            case Apnd => tok.text == "&" && Head(rest) != '&'
            case Comm => tok.text == ";"
            case Fsep => tok.text == ","
            case Modf => tok.text == "."
            case Misc => |tok.text| == 1
  {
    hide Skip, Span;
    var s := Skip(t);
    SpanWhole(false, s);
    SpanWhole(true, s);
    if s != "" {
      assert s == [s[0]] + s[1..];
      if |s| > 1 {
        assert s[1..] == [s[1]] + s[2..];
      }
    }
  }

  lemma {:induction false} SpanWhole(word: bool, t: string)
    ensures var (x, rest) := Span(word, t);
            && (if word then AllWord(x) && !IsWord(Head(rest)) else AllDigits(x) && !IsDigit(Head(rest)))
            && (x != "" ==> x[0] == Head(t))
  {
    if t != "" && (if word then IsWord(t[0]) else IsDigit(t[0])) {
      SpanWhole(word, t[1..]);
    }
  }

  lemma TokenSkips(pad: string, t: string)
    requires AllSpace(pad)
    ensures GetToken(pad + t) == GetToken(t)
  {
    SkipSpaces(pad, t);
  }

  lemma NumberToken(x: string, t: string)
    requires x != "" && AllDigits(x) && !IsDigit(Head(t))
    ensures GetToken(x + t) == (Token(Numb, x), t)
  {
    SpanTakes(false, x, t);
  }

  lemma WordToken(x: string, t: string)
    requires x != "" && AllWord(x) && (IsAlpha(x[0]) || x[0] == '_') && !IsWord(Head(t))
    ensures GetToken(x + t) == (Token(Char, x), t)
  {
    SpanTakes(true, x, t);
  }
}
