/** Two sources of different meaning with one canonical text: a literal past the largest double is infinity,
    which prints as the name inf (packages/engine/quanta_engine/dsl/nodes.py).
  */
module Overflow {
  import opened Wrappers
  import opened Syntax
  import opened Lexer
  import opened Grammar
  import opened ParsesBack
  import RoundTrip

  function Zeros(n: nat): string {
    seq(n, _ => '0')
  }

  function TenTo(n: nat): nat {
    if n == 0 then 1 else 10 * TenTo(n - 1)
  }

  lemma {:induction false} OneAndZeros(n: nat)
    ensures AllDigits("1" + Zeros(n)) && Natural("1" + Zeros(n)) == TenTo(n)
  {
    var s := "1" + Zeros(n);
    if n == 0 {
      assert s[..0] == "" && Natural("") == 0;
    } else {
      OneAndZeros(n - 1);
      assert s[..|s| - 1] == "1" + Zeros(n - 1);
    }
  }

  lemma {:induction false} TenToAdds(m: nat, n: nat)
    ensures TenTo(m + n) == TenTo(m) * TenTo(n)
  {
    if m > 0 { TenToAdds(m - 1, n); }
  }

  lemma TenTo48()
    ensures TenTo(48) == 1_0000_0000_0000_0000_0000_0000_0000_0000_0000_0000_0000_0000
  {
    assert TenTo(6) == 100_0000;
    TenToAdds(6, 6);
    TenToAdds(12, 12);
    TenToAdds(24, 24);
  }

  lemma TenTo97()
    ensures TenTo(97) >= 4 * TWO_TO_320
  {
    TenTo48();
    TenToAdds(48, 48);
  }

  lemma TenTo18()
    ensures TenTo(18) == 1_000_000_000_000_000_000
  {
    assert TenTo(6) == 100_0000;
    TenToAdds(6, 6);
    TenToAdds(6, 12);
  }

  lemma ThirdPower(a: nat, b: nat)
    requires a >= 4 * b
    ensures a * a * a >= 64 * (b * b * b)
  {
    assert a * a >= (4 * b) * a >= (4 * b) * (4 * b);
    assert a * a * a >= (4 * b) * (4 * b) * a >= (4 * b) * (4 * b) * (4 * b);
  }

  lemma TenTo291()
    ensures TenTo(291) >= 64 * (TWO_TO_320 * TWO_TO_320 * TWO_TO_320)
  {
    TenToAdds(97, 97);
    TenToAdds(194, 97);
    TenTo97();
    hide *;
    ThirdPower(TenTo(97), TWO_TO_320);
  }

  /** A one and 309 zeros or more are past the largest double. */
  lemma {:induction false} TenToOverflows(n: nat)
    requires n >= 309
    ensures TenTo(n) >= OVERFLOW
  {
    if n > 309 {
      TenToOverflows(n - 1);
    } else {
      TenTo291();
      TenTo18();
      TenToAdds(291, 18);
    }
  }

  // --- the two sources ----------------------------------------------------------

  const CLOSE := Token(IDENT, "close")
  const GREATER := Token(OPERATOR, ">")

  /** `close >` and one more token. */
  function Compared(t: Token): seq<Token> {
    [CLOSE, GREATER, t, END]
  }

  /** The tree of `close >` and an operand. */
  function Above(n: Node): Node {
    Binary(Greater, Identifier("close"), n)
  }

  lemma ComparedLexes(text: string, t: Token)
    requires Lex(text) == Ok([t, END])
    ensures Lex("close > " + text) == Ok(Compared(t))
  {
    hide Lex;
    assert "close > " + text == "close" + (" > " + text);
    RoundTrip.WordLexes("close", " > " + text);
    assert WordToken("close") == CLOSE;
    RoundTrip.OperatorLexes(Greater, text);
    assert " " + OpText(Greater) + " " + text == " > " + text;
    assert [CLOSE] + ([GREATER] + [t, END]) == Compared(t);
  }

  lemma InfLexes()
    ensures Lex("inf") == Ok([Token(IDENT, "inf"), END])
  {
    RoundTrip.WordLexes("inf", "");
    assert "inf" + "" == "inf" && WordToken("inf") == Token(IDENT, "inf");
    assert [Token(IDENT, "inf")] + [END] == [Token(IDENT, "inf"), END];
  }

  lemma DigitsLex(digits: string)
    requires digits != "" && AllDigits(digits)
    ensures Lex(digits) == Ok([Token(NUMBER, digits), END])
  {
    assert digits + "" == digits;
    RoundTrip.DigitsStop(digits, "", false);
    RoundTrip.Emits(digits, Token(NUMBER, digits), "");
    assert [Token(NUMBER, digits)] + [END] == [Token(NUMBER, digits), END];
  }

  lemma ComparedParses(t: Token, n: Node)
    requires t.kind == IDENT || t.kind == NUMBER
    requires t.kind == IDENT ==> n == Identifier(t.value)
    requires t.kind == NUMBER ==> n.Number? && ReadNumber(t.value) == Some(n.value)
    ensures ParseTokens(SOURCE_LIMITS, Compared(t)) == Ok(Above(n))
  {
    hide Chain, ReadNumber;
    var lim, ts := SOURCE_LIMITS, Compared(t);
    assert Primary(lim, ts, 0, 0, 0) == Ok(Parsed(Identifier("close"), 1, 1));
    assert Primary(lim, ts, 2, 2, 0) == Ok(Parsed(n, 3, 3));
    hide Primary;
    ComparandReads(lim, ts, 0, 0, 0, true, Identifier("close"), 1, 1);
    ComparandReads(lim, ts, 2, 2, 0, true, n, 3, 3);
    UpFromNot(lim, ts, 0, 0, 0);
  }

  lemma {:induction false} DigitsHaveNoPoint(digits: string)
    requires AllDigits(digits)
    ensures PointAt(digits) == |digits|
  {
    if digits != "" { DigitsHaveNoPoint(digits[1..]); }
  }

  lemma LongLiteralIsInfinite(zeros: nat)
    requires zeros >= 309
    ensures AllDigits("1" + Zeros(zeros)) && ReadNumber("1" + Zeros(zeros)) == Some(Infinite)
  {
    OneAndZeros(zeros);
    TenToOverflows(zeros);
    hide Natural, TenTo;
    var s := "1" + Zeros(zeros);
    DigitsHaveNoPoint(s);
    assert s[..|s|] == s && OrZero(StripLeft(s)) == s;
  }

  lemma SameText()
    ensures var name, literal := Above(Identifier("inf")), Above(Number(Infinite));
      WellFormed(name) && WellFormed(literal) && Show(name) == Show(literal) == "(close > inf)"
  {
    assert IsName("close") && IsName("inf");
    Shown("inf", Identifier("inf"));
    Shown("inf", Number(Infinite));
  }

  lemma Shown(text: string, n: Node)
    requires WellFormed(n) && Show(n) == text && IsName("close")
    ensures WellFormed(Above(n)) && Show(Above(n)) == "(close > " + text + ")"
  {
    RoundTrip.BinaryShown(Above(n));
    assert Show(Identifier("close")) == "close";
    hide Show, WellFormed;
    assert "(" + "close" == "(close" && " " + OpText(Greater) + " " == " > ";
    assert "(close" + " > " == "(close > ";
  }

  /** The two sources, for every literal that fits the longest expression: different trees, one text. */
  lemma OverflowSharesTheText(zeros: nat)
    requires 309 <= zeros <= 3991
    ensures var name, literal := Parse("close > inf"), Parse("close > 1" + Zeros(zeros));
      && name.Ok? && literal.Ok? && name != literal
      && WellFormed(name.value) && WellFormed(literal.value)
      && Show(name.value) == Show(literal.value) == "(close > inf)"
  {
    hide Lex, ParseTokens, ReadNumber, Show, WellFormed, ShowDecimal, Natural, Compared;
    var digits := "1" + Zeros(zeros);
    SameText();
    LongLiteralIsInfinite(zeros);
    InfLexes();
    DigitsLex(digits);
    ComparedLexes("inf", Token(IDENT, "inf"));
    ComparedLexes(digits, Token(NUMBER, digits));
    assert "close > " + "inf" == "close > inf" && "close > " + digits == "close > 1" + Zeros(zeros);
    ComparedParses(Token(IDENT, "inf"), Identifier("inf"));
    ComparedParses(Token(NUMBER, digits), Number(Infinite));
  }
}
