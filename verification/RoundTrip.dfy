/** Printing and parsing undo each other, and layout does not matter. */
module RoundTrip {
  import opened Wrappers
  import opened Collections
  import opened Syntax
  import opened Lexer
  import opened ParsesBack

  // --- lexing one token ------------------------------------------------------

  lemma Emits(text: string, t: Token, rest: string)
    requires |text| > 0 && ScanOne(text + rest) == Ok(Emit(t, |text|))
    ensures Lex(text + rest) == Prepend(t, Lex(rest))
  {
    hide ScanOne;
    assert (text + rest)[|text|..] == rest;
  }

  lemma {:induction false} WordStops(word: string, rest: string)
    requires AllWordChars(word) && (rest == "" || !IsWordChar(rest[0]))
    ensures WordLength(word + rest) == |word|
  {
    if word == "" {
      assert word + rest == rest;
    } else {
      assert (word + rest)[1..] == word[1..] + rest;
      WordStops(word[1..], rest);
    }
  }

  /** A word ends where a character no word can hold follows. */
  lemma WordLexes(word: string, rest: string)
    requires IsWord(word) && (rest == "" || !IsWordChar(rest[0]))
    ensures Lex(word + rest) == Prepend(WordToken(word), Lex(rest))
  {
    var s := word + rest;
    WordStops(word, rest);
    assert s[0] == word[0] && s[..|word|] == word;
    Emits(word, WordToken(word), rest);
  }

  lemma {:induction false} DigitsStop(digits: string, rest: string, seenDot: bool)
    requires AllDigits(digits)
    ensures NumberLength(digits + rest, seenDot) ==
      match NumberLength(rest, seenDot) case None => None case Some(m) => Some(|digits| + m)
  {
    if digits == "" {
      assert digits + rest == rest;
    } else {
      assert (digits + rest)[1..] == digits[1..] + rest;
      DigitsStop(digits[1..], rest, seenDot);
    }
  }

  predicate EndsNumber(rest: string) {
    rest == "" || !(IsWordChar(rest[0]) || rest[0] == '.')
  }

  lemma NumberScans(s: string, n: nat)
    requires 1 <= n <= |s| && IsDigit(s[0]) && NumberLength(s, false) == Some(n) && EndsNumber(s[n..])
    ensures ScanOne(s) == Ok(Emit(Token(NUMBER, s[..n]), n))
  {
    hide NumberLength, OperatorAt, WordLength, LineLength, WordToken;
    assert n < |s| ==> s[n..][0] == s[n];
  }

  lemma NothingRead(rest: string, seenDot: bool)
    requires EndsNumber(rest)
    ensures NumberLength(rest, seenDot) == Some(0)
  {
  }

  lemma FirstThenRest(x: string, y: string)
    requires x != ""
    ensures (x + y)[0] == x[0] && (x + y)[..|x|] == x && (x + y)[|x|..] == y
  {
  }

  lemma FirstDigit(digits: string)
    requires AllDigits(digits) && digits != ""
    ensures IsDigit(digits[0])
  {
  }

  /** Digits, a point and digits are one number. */
  lemma DecimalLexes(whole: string, frac: string, rest: string)
    requires |whole| > 0 && AllDigits(whole) && AllDigits(frac) && EndsNumber(rest)
    ensures Lex(whole + "." + frac + rest) == Prepend(Token(NUMBER, whole + "." + frac), Lex(rest))
  {
    hide *;
    var text := whole + "." + frac;
    Regroup(whole, ".", frac);
    Regroup(whole, "." + frac, rest);
    FirstDigit(whole);
    FirstThenRest(whole, "." + frac);
    FirstThenRest(text, rest);
    NothingRead(rest, true);
    PointStops(frac, rest);
    DigitsStop(whole, "." + frac + rest, false);
    NumberScans(text + rest, |text|);
    Emits(text, Token(NUMBER, text), rest);
  }

  lemma PointStops(frac: string, tail: string)
    requires AllDigits(frac) && NumberLength(tail, true) == Some(0)
    ensures NumberLength("." + frac + tail, false) == Some(1 + |frac|)
  {
    hide *;
    Regroup(".", frac, tail);
    FirstThenRest(".", frac + tail);
    PointStep("." + (frac + tail));
    DigitsStop(frac, tail, true);
  }

  lemma PointStep(s: string)
    requires s != "" && s[0] == '.'
    ensures NumberLength(s, false) == match NumberLength(s[1..], true) case None => None case Some(m) => Some(1 + m)
  {
  }

  lemma MantissaStops(first: char, frac: string, tail: string)
    requires IsDigit(first) && AllDigits(frac) && tail != "" && tail[0] == 'e'
    ensures NumberLength([first] + tail, false) == Some(1)
    ensures NumberLength([first] + ("." + frac + tail), false) == Some(2 + |frac|)
  {
    assert NumberLength(tail, true) == NumberLength(tail, false) == Some(0);
    PointStops(frac, tail);
    hide NumberLength;
    DigitsStop([first], tail, false);
    DigitsStop([first], "." + frac + tail, false);
  }

  lemma LetterRefused(s: string, n: nat)
    requires 1 <= n < |s| && IsDigit(s[0]) && NumberLength(s, false) == Some(n) && s[n] == 'e'
    ensures Lex(s).Err?
  {
    hide NumberLength;
  }

  /** A number with an exponent is refused: its mantissa runs into the letter e. */
  lemma ScientificIsRefused(significant: string, exponent: int, rest: string)
    requires |significant| > 0 && AllDigits(significant)
    ensures Lex(Scientific(significant, exponent) + rest).Err?
  {
    hide Lex, NumberLength, Digits;
    var s := Scientific(significant, exponent) + rest;
    var first, more := significant[0], significant[1..];
    if more == "" {
      assert s[1] == 'e';
      assert s == [first] + s[1..];
      MantissaStops(first, "", s[1..]);
      LetterRefused(s, 1);
    } else {
      var n := 2 + |more|;
      assert s[n] == 'e';
      assert s == [first] + ("." + more + s[n..]);
      MantissaStops(first, more, s[n..]);
      LetterRefused(s, n);
    }
  }

  lemma NumberLexes(d: Decimal, rest: string)
    requires d.Normal() && EndsNumber(rest)
    ensures d.Plain() ==> Lex(ShowDecimal(d) + rest) == Prepend(Token(NUMBER, ShowDecimal(d)), Lex(rest))
    ensures d.Infinite? ==> Lex(ShowDecimal(d) + rest) == Prepend(Token(IDENT, "inf"), Lex(rest))
    ensures d.Decimal? && !d.Plain() ==> Lex(ShowDecimal(d) + rest).Err?
  {
    hide Lex, Scientific, Overflows, LeadingZeros;
    if d.Infinite? {
      WordLexes("inf", rest);
    } else if d.Plain() {
      DecimalLexes(d.whole, d.frac, rest);
    } else if |d.whole| > 16 {
      var significant := OrZero(StripRight(d.whole + d.frac));
      assert AllDigits(significant);
      ScientificIsRefused(significant, |d.whole| - 1, rest);
    } else {
      var significant := OrZero(StripLeft(d.frac));
      assert AllDigits(significant);
      ScientificIsRefused(significant, -(LeadingZeros(d.frac) + 1), rest);
    }
  }

  lemma ParenLexes(rest: string)
    ensures Lex("(" + rest) == Prepend(LEFT, Lex(rest))
    ensures Lex(")" + rest) == Prepend(RIGHT, Lex(rest))
  {
    Emits("(", LEFT, rest);
    Emits(")", RIGHT, rest);
  }

  lemma BlankLexes(rest: string)
    ensures Lex(" " + rest) == Lex(rest)
  {
    assert (" " + rest)[1..] == rest;
  }

  lemma CommaLexes(rest: string)
    ensures Lex(", " + rest) == Prepend(NEXT, Lex(rest))
  {
    assert ", " + rest == "," + (" " + rest);
    Emits(",", NEXT, " " + rest);
    BlankLexes(rest);
  }

  lemma SymbolLexes(text: string, rest: string)
    requires text in {"+", "-", "*", "/", "%", "<", "<=", ">", ">=", "==", "!="}
    requires rest == "" || rest[0] != '=' || text == "-"
    ensures Lex(text + rest) == Prepend(Token(OPERATOR, text), Lex(rest))
  {
    SymbolFound(text, rest);
    hide OperatorAt, Lex;
    Emits(text, Token(OPERATOR, text), rest);
  }

  lemma SymbolFound(text: string, rest: string)
    requires text in {"+", "-", "*", "/", "%", "<", "<=", ">", ">=", "==", "!="}
    requires rest == "" || rest[0] != '=' || text == "-"
    ensures ScanOne(text + rest) == Ok(Emit(Token(OPERATOR, text), |text|))
  {
    var s := text + rest;
    assert s[0] == text[0] && s[..|text|] == text;
    assert |text| == 1 && rest != "" ==> s[1] == rest[0];
    assert OperatorAt(s) == text;
  }

  /** An operator between its two blanks. */
  lemma OperatorLexes(op: BinaryOp, rest: string)
    ensures Lex(" " + OpText(op) + " " + rest) == Prepend(OpToken(op), Lex(rest))
  {
    hide Lex;
    var text, after := OpText(op), " " + rest;
    assert " " + text + " " + rest == " " + (text + after);
    BlankLexes(text + after);
    BlankLexes(rest);
    if op.Both? || op.Either? {
      WordLexes(text, after);
    } else {
      SymbolLexes(text, after);
    }
  }

  function SignText(op: UnaryOp): string {
    if op.Not? then "(not " else "(-"
  }

  lemma SignLexes(op: UnaryOp, rest: string)
    ensures Lex(SignText(op) + rest) == Prepend(LEFT, Prepend(SignToken(op), Lex(rest)))
  {
    hide Lex;
    if op.Not? {
      assert "(not " + rest == "(" + ("not" + (" " + rest));
      ParenLexes("not" + (" " + rest));
      WordLexes("not", " " + rest);
      BlankLexes(rest);
    } else {
      assert "(-" + rest == "(" + ("-" + rest);
      ParenLexes("-" + rest);
      SymbolLexes("-", rest);
    }
  }

  // --- lexing a printed tree --------------------------------------------------

  /** What can follow a printed tree: nothing, a blank, a closing parenthesis or a comma. */
  predicate Follows(rest: string) {
    rest == "" || rest[0] in {' ', ')', ','}
  }

  /** The printed tree lexes to its tokens when every number prints without an exponent, and is refused otherwise. */
  lemma {:induction false} ShowLexes(n: Node, rest: string)
    requires WellFormed(n) && Follows(rest)
    ensures Adds(Lex(Show(n) + rest), Legible(n), TokensOf(n), Lex(rest))
    decreases n, 1
  {
    hide Lex;
    match n {
      case Number(d) => NumberLexes(d, rest);
      case Boolean(b) => WordLexes(Show(n), rest);
      case Identifier(name) => WordLexes(name, rest);
      case Call(name, args) => CallLexes(n, rest);
      case Unary(op, x) => UnaryLexes(n, rest);
      case Binary(op, l, r) => BinaryLexes(n, rest);
    }
  }

  /** r is the tokens in front of what the rest lexes to; an error if they are not legible. */
  predicate Adds(r: Result<seq<Token>, ParseError>, legible: bool, ts: seq<Token>, rest: Result<seq<Token>, ParseError>) {
    if legible then r == Join(ts, rest) else r.Err?
  }

  lemma AddsOne(t: Token, legible: bool, ts: seq<Token>, r: Result<seq<Token>, ParseError>,
                rest: Result<seq<Token>, ParseError>)
    requires Adds(r, legible, ts, rest)
    ensures Adds(Prepend(t, r), legible, [t] + ts, rest)
  {
    if rest.Ok? { assert [t] + (ts + rest.value) == [t] + ts + rest.value; }
  }

  lemma AddsThen(legible: bool, ts: seq<Token>, r: Result<seq<Token>, ParseError>, legible': bool, us: seq<Token>,
                 mid: Result<seq<Token>, ParseError>, rest: Result<seq<Token>, ParseError>)
    requires Adds(r, legible, ts, mid) && Adds(mid, legible', us, rest)
    ensures Adds(r, legible && legible', ts + us, rest)
  {
    if rest.Ok? { assert ts + (us + rest.value) == ts + us + rest.value; }
  }

  lemma AddsToken(t: Token, rest: Result<seq<Token>, ParseError>)
    ensures Adds(Prepend(t, rest), true, [t], rest)
  {
  }

  lemma FollowsParts(rest: string)
    ensures Follows(")" + rest) && Follows(" " + rest) && Follows(", " + rest)
  {
  }

  lemma UnaryText(n: Node, rest: string)
    requires n.Unary? && WellFormed(n)
    ensures WellFormed(n.operand) && Legible(n) == Legible(n.operand)
    ensures Show(n) + rest == SignText(n.uop) + (Show(n.operand) + (")" + rest))
  {
    var sign, x := SignText(n.uop), Show(n.operand);
    assert Show(n) == (sign + x) + ")";
    hide *;
    Regroup(sign + x, ")", rest);
    Regroup(sign, x, ")" + rest);
  }

  lemma UnaryTokens(n: Node)
    requires n.Unary? && WellFormed(n)
    ensures WellFormed(n.operand)
    ensures TokensOf(n) == [LEFT] + ([SignToken(n.uop)] + (TokensOf(n.operand) + [RIGHT]))
  {
    var sign, xs := SignToken(n.uop), TokensOf(n.operand);
    assert TokensOf(n) == ([LEFT, sign] + xs) + [RIGHT];
    hide *;
    assert [LEFT, sign] == [LEFT] + [sign];
    Regroup([LEFT, sign], xs, [RIGHT]);
    Regroup([LEFT], [sign], xs + [RIGHT]);
  }

  lemma {:induction false} UnaryLexes(n: Node, rest: string)
    requires n.Unary? && WellFormed(n)
    ensures Adds(Lex(Show(n) + rest), Legible(n), TokensOf(n), Lex(rest))
    decreases n, 0
  {
    hide *;
    UnaryText(n, rest);
    UnaryTokens(n);
    FollowsParts(rest);
    var x, tail := n.operand, ")" + rest;
    SignLexes(n.uop, Show(x) + tail);
    ShowLexes(x, tail);
    ParenLexes(rest);
    AddsToken(RIGHT, Lex(rest));
    AddsThen(Legible(x), TokensOf(x), Lex(Show(x) + tail), true, [RIGHT], Lex(tail), Lex(rest));
    AddsOne(SignToken(n.uop), Legible(x), TokensOf(x) + [RIGHT], Lex(Show(x) + tail), Lex(rest));
    var inner := Prepend(SignToken(n.uop), Lex(Show(x) + tail));
    AddsOne(LEFT, Legible(x), [SignToken(n.uop)] + (TokensOf(x) + [RIGHT]), inner, Lex(rest));
  }

  lemma BinaryText(n: Node, rest: string)
    requires n.Binary? && WellFormed(n)
    ensures WellFormed(n.left) && WellFormed(n.right) && (Legible(n) <==> Legible(n.left) && Legible(n.right))
    ensures Show(n) + rest ==
      "(" + (Show(n.left) + (" " + OpText(n.op) + " " + (Show(n.right) + (")" + rest))))
  {
    var l, o, r := Show(n.left), " " + OpText(n.op) + " ", Show(n.right);
    assert Show(n) == ((("(" + l) + o) + r) + ")" by { BinaryShown(n); }
    hide *;
    Regroup((("(" + l) + o) + r, ")", rest);
    Regroup(("(" + l) + o, r, ")" + rest);
    Regroup("(" + l, o, r + (")" + rest));
    Regroup("(", l, o + (r + (")" + rest)));
  }

  lemma BinaryShown(n: Node)
    requires n.Binary? && WellFormed(n)
    ensures Show(n) == ((("(" + Show(n.left)) + (" " + OpText(n.op) + " ")) + Show(n.right)) + ")"
  {
    hide OpText;
    var l, op := Show(n.left), OpText(n.op);
    Regroup("(" + l, " ", op);
    Regroup("(" + l, " " + op, " ");
  }

  lemma BinaryTokens(n: Node)
    requires n.Binary? && WellFormed(n)
    ensures TokensOf(n) == [LEFT] + (TokensOf(n.left) + ([OpToken(n.op)] + (TokensOf(n.right) + [RIGHT])))
  {
  }

  lemma BlankFollows(text: string, rest: string)
    ensures Follows(" " + text + " " + rest)
  {
  }

  lemma {:induction false} BinaryLexes(n: Node, rest: string)
    requires n.Binary? && WellFormed(n)
    ensures Adds(Lex(Show(n) + rest), Legible(n), TokensOf(n), Lex(rest))
    decreases n, 0
  {
    hide *;
    BinaryText(n, rest);
    BinaryTokens(n);
    FollowsParts(rest);
    var l, r, op := n.left, n.right, OpToken(n.op);
    var tail := ")" + rest;
    var mid := " " + OpText(n.op) + " " + (Show(r) + tail);
    BlankFollows(OpText(n.op), Show(r) + tail);
    ParenLexes(Show(l) + mid);
    ShowLexes(l, mid);
    OperatorLexes(n.op, Show(r) + tail);
    ShowLexes(r, tail);
    ParenLexes(rest);
    AddsToken(RIGHT, Lex(rest));
    AddsThen(Legible(r), TokensOf(r), Lex(Show(r) + tail), true, [RIGHT], Lex(tail), Lex(rest));
    AddsOne(op, Legible(r), TokensOf(r) + [RIGHT], Lex(Show(r) + tail), Lex(rest));
    AddsThen(Legible(l), TokensOf(l), Lex(Show(l) + mid), Legible(r), [op] + (TokensOf(r) + [RIGHT]), Lex(mid), Lex(rest));
    AddsOne(LEFT, Legible(l) && Legible(r), TokensOf(l) + ([op] + (TokensOf(r) + [RIGHT])), Lex(Show(l) + mid), Lex(rest));
  }

  predicate AllLegible(args: seq<Node>) {
    forall a :: a in args ==> Legible(a)
  }

  lemma ArgsText(args: seq<Node>, rest: string)
    requires (forall a :: a in args ==> WellFormed(a)) && |args| > 1
    ensures ShowArgs(args) + rest == Show(args[0]) + (", " + (ShowArgs(args[1..]) + rest))
    ensures ArgTokens(args) == TokensOf(args[0]) + ([NEXT] + ArgTokens(args[1..]))
  {
    var a, later := Show(args[0]), ShowArgs(args[1..]);
    assert ShowArgs(args) == (a + ", ") + later;
    Regroup(a + ", ", later, rest);
    Regroup(a, ", ", later + rest);
    Regroup(TokensOf(args[0]), [NEXT], ArgTokens(args[1..]));
  }

  lemma AllLegibleSplit(args: seq<Node>)
    requires (forall a :: a in args ==> WellFormed(a)) && |args| > 0
    ensures WellFormed(args[0]) && forall a :: a in args[1..] ==> WellFormed(a)
    ensures AllLegible(args) <==> Legible(args[0]) && AllLegible(args[1..])
  {
    assert args == [args[0]] + args[1..];
  }

  lemma {:induction false} ArgsLex(args: seq<Node>, rest: string)
    requires (forall a :: a in args ==> WellFormed(a)) && Follows(rest)
    ensures Adds(Lex(ShowArgs(args) + rest), AllLegible(args), ArgTokens(args), Lex(rest))
    decreases args, 2
  {
    if |args| == 0 {
      hide Lex, Follows;
      assert "" + rest == rest;
      JoinNothing(Lex(rest));
    } else if |args| == 1 {
      hide Lex, Adds, Follows;
      AllLegibleSplit(args);
      ShowLexes(args[0], rest);
    } else {
      hide *;
      var a, later := args[0], args[1..];
      AllLegibleSplit(args);
      ArgsText(args, rest);
      var tail := ", " + (ShowArgs(later) + rest);
      FollowsParts(ShowArgs(later) + rest);
      ShowLexes(a, tail);
      CommaLexes(ShowArgs(later) + rest);
      ArgsLex(later, rest);
      AddsOne(NEXT, AllLegible(later), ArgTokens(later), Lex(ShowArgs(later) + rest), Lex(rest));
      AddsThen(Legible(a), TokensOf(a), Lex(Show(a) + tail), AllLegible(later),
               [NEXT] + ArgTokens(later), Lex(tail), Lex(rest));
    }
  }

  lemma CallText(n: Node, rest: string)
    requires n.Call? && WellFormed(n)
    ensures IsWord(n.name) && WordToken(n.name) == Token(IDENT, n.name) && Legible(n) == AllLegible(n.args)
    ensures forall a :: a in n.args ==> WellFormed(a)
    ensures Show(n) + rest == n.name + ("(" + (ShowArgs(n.args) + (")" + rest)))
  {
    var name, args := n.name, ShowArgs(n.args);
    assert Show(n) == ((name + "(") + args) + ")";
    hide Show, ShowArgs;
    Regroup((name + "(") + args, ")", rest);
    Regroup(name + "(", args, ")" + rest);
    Regroup(name, "(", args + (")" + rest));
  }

  lemma CallTokens(n: Node)
    requires n.Call? && WellFormed(n)
    ensures TokensOf(n) == [Token(IDENT, n.name)] + ([LEFT] + (ArgTokens(n.args) + [RIGHT]))
  {
    var name, args := Token(IDENT, n.name), ArgTokens(n.args);
    assert TokensOf(n) == ([name, LEFT] + args) + [RIGHT];
    hide *;
    assert [name, LEFT] == [name] + [LEFT];
    Regroup([name, LEFT], args, [RIGHT]);
    Regroup([name], [LEFT], args + [RIGHT]);
  }

  lemma {:induction false} CallLexes(n: Node, rest: string)
    requires n.Call? && WellFormed(n)
    ensures Adds(Lex(Show(n) + rest), Legible(n), TokensOf(n), Lex(rest))
    decreases n.args, 3
  {
    hide *;
    CallText(n, rest);
    CallTokens(n);
    FollowsParts(rest);
    var tail := ")" + rest;
    var inner := ShowArgs(n.args) + tail;
    ParenEndsWord(inner);
    WordLexes(n.name, "(" + inner);
    ParenLexes(inner);
    ArgsLex(n.args, tail);
    ParenLexes(rest);
    AddsToken(RIGHT, Lex(rest));
    AddsThen(Legible(n), ArgTokens(n.args), Lex(inner), true, [RIGHT], Lex(tail), Lex(rest));
    AddsOne(LEFT, Legible(n), ArgTokens(n.args) + [RIGHT], Lex(inner), Lex(rest));
    AddsOne(Token(IDENT, n.name), Legible(n), [LEFT] + (ArgTokens(n.args) + [RIGHT]), Lex("(" + inner), Lex(rest));
  }

  lemma ParenEndsWord(rest: string)
    ensures !IsWordChar(("(" + rest)[0])
  {
  }
}
