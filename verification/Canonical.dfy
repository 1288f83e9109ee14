/** The canonical form of an expression, which a strategy's version hash is taken over
    (packages/engine/quanta_engine/strategy.py).
  */
module Canonical {
  import opened Wrappers
  import opened Syntax
  import opened Lexer
  import opened Grammar
  import opened ParsesBack
  import opened RoundTrip
  import opened Renderings

  // --- overflowed numbers ---------------------------------------------------------

  /** An overflowed number and the name inf print alike and cost the parser the same. */
  lemma {:induction false} InfIsAlike(n: Node)
    requires WellFormed(n)
    ensures Show(Inf(n)) == Show(n) && (Plain(Inf(n)) <==> Legible(n))
    ensures Cost(Inf(n)) == Cost(n) && Height(Inf(n)) == Height(n)
    decreases n, 0
  {
    hide ShowDecimal, IsName, Decimal.Normal;
    match n {
      case Number(d) => InfiniteShown();
      case Call(name, args) => InfAllAlike(args);
      case Unary(_, x) => InfIsAlike(x);
      case Binary(_, l, r) => InfIsAlike(l); InfIsAlike(r);
      case _ =>
    }
  }

  lemma {:induction false} InfAllAlike(args: seq<Node>)
    requires forall a :: a in args ==> WellFormed(a)
    ensures ShowArgs(InfAll(args)) == ShowArgs(args)
    ensures (forall a :: a in InfAll(args) ==> Plain(a)) <==> forall a :: a in args ==> Legible(a)
    ensures ArgsCost(InfAll(args)) == ArgsCost(args) && ArgsHeight(InfAll(args)) == ArgsHeight(args)
    decreases args, 1
  {
    hide Show, Cost, Height, Plain, Legible, WellFormed;
    if |args| > 0 {
      InfIsAlike(args[0]);
      InfAllAlike(args[1..]);
      assert args == [args[0]] + args[1..];
      assert InfAll(args)[1..] == InfAll(args[1..]);
    }
  }

  lemma {:induction false} InfArgsFit(n: Node, most: nat)
    ensures ArgsFit(Inf(n), most) <==> ArgsFit(n, most)
    decreases n, 0
  {
    match n {
      case Call(_, args) => InfAllArgsFit(args, most);
      case Unary(_, x) => InfArgsFit(x, most);
      case Binary(_, l, r) => InfArgsFit(l, most); InfArgsFit(r, most);
      case _ =>
    }
  }

  lemma {:induction false} InfAllArgsFit(args: seq<Node>, most: nat)
    ensures (forall a :: a in InfAll(args) ==> ArgsFit(a, most)) <==> forall a :: a in args ==> ArgsFit(a, most)
    decreases args, 1
  {
    hide ArgsFit;
    if |args| > 0 {
      InfArgsFit(args[0], most);
      InfAllArgsFit(args[1..], most);
      assert args == [args[0]] + args[1..];
      assert InfAll(args)[1..] == InfAll(args[1..]);
    }
  }

  // --- printing, then parsing ---------------------------------------------------

  /** Exactly when the parser accepts a tree's rendering: its numbers print without an exponent, and
      the text, its nodes, its nesting and its calls are within the parser's budgets.
    */
  predicate ReadsBack(n: Node)
    requires WellFormed(n)
  {
    && Legible(n) && |Show(n)| <= MAX_EXPRESSION_LENGTH
    && Fits(SOURCE_LIMITS, n, 0, 0)
  }

  lemma PrintedTokens(n: Node)
    requires WellFormed(n)
    ensures Legible(n) ==> Lex(Show(n)) == Ok(TokensOf(n) + [END])
    ensures !Legible(n) ==> Lex(Show(n)).Err?
  {
    ShowLexes(n, "");
    assert Show(n) + "" == Show(n);
  }

  lemma TokensAreClosed(n: Node)
    requires WellFormed(n)
    ensures Legible(n) ==> Closed(TokensOf(n) + [END]) && At(TokensOf(n) + [END], 0, TokensOf(n))
  {
    PrintedTokens(n);
    var ts := TokensOf(n) + [END];
    assert ts[0..|TokensOf(n)|] == TokensOf(n);
  }

  lemma {:induction false} PlainIsLegible(n: Node)
    requires Plain(n)
    ensures Legible(n)
  {
    match n {
      case Call(_, args) => forall a | a in args ensures Legible(a) { PlainIsLegible(a); }
      case Unary(_, x) => PlainIsLegible(x);
      case Binary(_, l, r) => PlainIsLegible(l); PlainIsLegible(r);
      case _ =>
    }
  }

  lemma TokensParse(lim: Limits, n: Node)
    requires WellFormed(n) && Plain(n) && lim.args >= 1 && Closed(TokensOf(n) + [END])
    ensures if Fits(lim, n, 0, 0) then ParseTokens(lim, TokensOf(n) + [END]) == Ok(n)
            else ParseTokens(lim, TokensOf(n) + [END]).Err?
  {
    hide Chain, Fits, TokensOf, Closed, At, WellFormed, Plain, Preorder;
    var ts := TokensOf(n) + [END];
    PlainIsLegible(n);
    TokensAreClosed(n);
    assert ts[|TokensOf(n)|] == END;
    ExpressionReads(lim, ts, 0, 0, 0, n);
  }

  lemma PlainReadsBack(n: Node)
    requires WellFormed(n) && Plain(n)
    ensures if ReadsBack(n) then Parse(Show(n)) == Ok(n) else Parse(Show(n)).Err?
  {
    hide WellFormed, Plain, Legible, Show, Lex, TokensOf, Fits;
    PlainIsLegible(n);
    PrintedTokens(n);
    TokensAreClosed(n);
    TokensParse(SOURCE_LIMITS, n);
  }

  /** The parser gives back every tree whose rendering it can read, an overflowed number as the name inf,
      and refuses every other rendering.
    */
  lemma PrintThenParse(n: Node)
    requires WellFormed(n)
    ensures if ReadsBack(n) then Parse(Show(n)) == Ok(Inf(n)) else Parse(Show(n)).Err?
  {
    hide Plain, Legible, Show, Lex, Inf, Cost, Height, ArgsFit;
    InfIsAlike(n);
    InfArgsFit(n, SOURCE_LIMITS.args);
    if Legible(n) {
      PlainIsLegible(Inf(n));
      PlainReadsBack(Inf(n));
    } else {
      PrintedTokens(n);
    }
  }

  /** Two trees have one rendering exactly when they are one tree, once an overflowed number counts as the
      name inf: whatever the budgets, and with exponents or without.
    */
  lemma ShowIsInjective(a: Node, b: Node)
    requires WellFormed(a) && WellFormed(b)
    ensures Show(a) == Show(b) <==> Inf(a) == Inf(b)
  {
    InfIsAlike(a);
    InfIsAlike(b);
    hide Show, Inf, WellFormed;
    if Show(a) == Show(b) { ShowDecodes(a, "", b, ""); }
  }

  // --- what the parser builds ---------------------------------------------------

  predicate GoodTokens(ts: seq<Token>) {
    forall k :: 0 <= k < |ts| && ts[k].kind == IDENT ==> IsName(ts[k].value)
  }

  lemma {:induction false} LexedNamesAreGood(s: string)
    ensures Lex(s).Ok? ==> GoodTokens(Lex(s).value)
    decreases |s|
  {
    if s != "" && ScanOne(s).Ok? {
      var one := ScanOne(s).value;
      LexedNamesAreGood(s[one.length..]);
    }
  }

  predicate Good(n: Node) {
    WellFormed(n) && ArgsFit(n, SOURCE_LIMITS.args)
  }

  lemma {:induction false} OperandGood(level: Level, ts: seq<Token>, i: nat, k: nat, d: nat)
    requires Closed(ts) && GoodTokens(ts) && i < |ts|
    ensures var r := Operand(SOURCE_LIMITS, level, ts, i, k, d); r.Ok? ==> Good(r.value.node)
    decreases |ts| - i, Rank(level) - 1
  {
    hide Good, GoodTokens, Closed, Chain, NotExpr, UnaryExpr;
    match level {
      case OrLevel => ChainGood(AndLevel, ts, i, k, d);
      case AndLevel => NotGood(ts, i, k, d);
      case AdditiveLevel => ChainGood(MultiplicativeLevel, ts, i, k, d);
      case MultiplicativeLevel => UnaryGood(ts, i, k, d);
    }
  }

  lemma {:induction false} ChainGood(level: Level, ts: seq<Token>, i: nat, k: nat, d: nat)
    requires Closed(ts) && GoodTokens(ts) && i < |ts|
    ensures var r := Chain(SOURCE_LIMITS, level, ts, i, k, d); r.Ok? ==> Good(r.value.node)
    decreases |ts| - i, Rank(level)
  {
    hide Good, GoodTokens, Closed, Operand, ChainTail;
    OperandGood(level, ts, i, k, d);
    var first := Operand(SOURCE_LIMITS, level, ts, i, k, d);
    if first.Ok? { TailGood(level, ts, first.value.node, first.value.next, first.value.nodes, d); }
  }

  lemma {:induction false} TailGood(level: Level, ts: seq<Token>, left: Node, i: nat, k: nat, d: nat)
    requires Closed(ts) && GoodTokens(ts) && i < |ts| && Good(left)
    ensures var r := ChainTail(SOURCE_LIMITS, level, ts, left, i, k, d); r.Ok? ==> Good(r.value.node)
    decreases |ts| - i, 0
  {
    hide GoodTokens, Operand;
    var op := OperatorOf(level, ts[i]);
    if op.Some? && i + 1 < |ts| {
      OperandGood(level, ts, i + 1, k + 1, d);
      var right := Operand(SOURCE_LIMITS, level, ts, i + 1, k + 1, d);
      if right.Ok? {
        TailGood(level, ts, Binary(op.value, left, right.value.node), right.value.next, right.value.nodes, d);
      }
    }
  }

  lemma {:induction false} NotGood(ts: seq<Token>, i: nat, k: nat, d: nat)
    requires Closed(ts) && GoodTokens(ts) && i < |ts|
    ensures var r := NotExpr(SOURCE_LIMITS, ts, i, k, d); r.Ok? ==> Good(r.value.node)
    decreases |ts| - i, 7
  {
    hide GoodTokens, Comparison;
    if ts[i] == Token(KEYWORD, "not") { NotGood(ts, i + 1, k + 1, d); } else { ComparisonGood(ts, i, k, d); }
  }

  lemma {:induction false} ComparisonGood(ts: seq<Token>, i: nat, k: nat, d: nat)
    requires Closed(ts) && GoodTokens(ts) && i < |ts|
    ensures var r := Comparison(SOURCE_LIMITS, ts, i, k, d); r.Ok? ==> Good(r.value.node)
    decreases |ts| - i, 6
  {
    hide GoodTokens, Chain;
    ChainGood(AdditiveLevel, ts, i, k, d);
    var left := Chain(SOURCE_LIMITS, AdditiveLevel, ts, i, k, d);
    if left.Ok? && ComparisonOf(ts[left.value.next]).Some? {
      ChainGood(AdditiveLevel, ts, left.value.next + 1, left.value.nodes + 1, d);
    }
  }

  lemma {:induction false} UnaryGood(ts: seq<Token>, i: nat, k: nat, d: nat)
    requires Closed(ts) && GoodTokens(ts) && i < |ts|
    ensures var r := UnaryExpr(SOURCE_LIMITS, ts, i, k, d); r.Ok? ==> Good(r.value.node)
    decreases |ts| - i, 1
  {
    hide GoodTokens, Primary;
    if ts[i] == Token(OPERATOR, "-") { UnaryGood(ts, i + 1, k + 1, d); } else { PrimaryGood(ts, i, k, d); }
  }

  lemma {:induction false} PrimaryGood(ts: seq<Token>, i: nat, k: nat, d: nat)
    requires Closed(ts) && GoodTokens(ts) && i < |ts|
    ensures var r := Primary(SOURCE_LIMITS, ts, i, k, d); r.Ok? ==> Good(r.value.node)
    decreases |ts| - i, 0
  {
    hide Chain, Arguments, ReadNumber;
    if ts[i].kind == LPAREN {
      ChainGood(OrLevel, ts, i + 1, k + 1, d + 1);
    } else if ts[i].kind == IDENT && ts[i + 1].kind == LPAREN {
      ArgumentsGood(ts, i + 2, k + 1, d + 1);
    }
  }

  predicate GoodArgs(args: seq<Node>) {
    |args| <= SOURCE_LIMITS.args && forall a :: a in args ==> Good(a)
  }

  lemma {:induction false} ArgumentsGood(ts: seq<Token>, i: nat, k: nat, d: nat)
    requires Closed(ts) && GoodTokens(ts) && i < |ts|
    ensures var r := Arguments(SOURCE_LIMITS, ts, i, k, d); r.Ok? ==> GoodArgs(r.value.args)
    decreases |ts| - i, 12
  {
    hide Chain, MoreArguments, GoodTokens;
    ChainGood(OrLevel, ts, i, k, d);
    var first := Chain(SOURCE_LIMITS, OrLevel, ts, i, k, d);
    if first.Ok? { MoreGood(ts, [first.value.node], first.value.next, first.value.nodes, d); }
  }

  lemma {:induction false} MoreGood(ts: seq<Token>, args: seq<Node>, i: nat, k: nat, d: nat)
    requires Closed(ts) && GoodTokens(ts) && i < |ts| && GoodArgs(args)
    ensures var r := MoreArguments(SOURCE_LIMITS, ts, args, i, k, d); r.Ok? ==> GoodArgs(r.value.args)
    decreases |ts| - i, 0
  {
    hide Chain, GoodTokens, Good;
    if ts[i].kind == COMMA {
      ChainGood(OrLevel, ts, i + 1, k, d);
      var arg := Chain(SOURCE_LIMITS, OrLevel, ts, i + 1, k, d);
      if arg.Ok? && |args| + 1 <= SOURCE_LIMITS.args {
        MoreGood(ts, args + [arg.value.node], arg.value.next, arg.value.nodes, d);
      }
    }
  }

  /** Whatever the source text, a parsed tree is one the printer can render. */
  lemma ParsedIsWellFormed(source: string)
    ensures Parse(source).Ok? ==> Good(Parse(source).value)
  {
    hide Lex, Chain;
    if Tokenize(source).Ok? {
      LexedNamesAreGood(source);
      ChainGood(OrLevel, Tokenize(source).value, 0, 0, 0);
    }
  }

  /** Canonicalising twice is canonicalising once: for every source the parser accepts, the canonical
      text parses to a tree with that canonical text exactly when the tree reads back, and to the same
      tree but for overflowed numbers; it is refused otherwise.
    */
  lemma CanonicalFormIsStable(source: string)
    requires Parse(source).Ok?
    ensures WellFormed(Parse(source).value)
    ensures var n := Parse(source).value;
      && (if ReadsBack(n) then Parse(Show(n)) == Ok(Inf(n)) else Parse(Show(n)).Err?)
      && Show(Inf(n)) == Show(n)
  {
    ParsedIsWellFormed(source);
    PrintThenParse(Parse(source).value);
    InfIsAlike(Parse(source).value);
  }

  /** Two accepted sources share their canonical text exactly when they mean the same tree, once an
      overflowed number counts as the name inf.
    */
  lemma CanonicalFormIsIdentity(s: string, t: string)
    requires Parse(s).Ok? && Parse(t).Ok?
    ensures WellFormed(Parse(s).value) && WellFormed(Parse(t).value)
    ensures Show(Parse(s).value) == Show(Parse(t).value) <==> Inf(Parse(s).value) == Inf(Parse(t).value)
  {
    hide Show, Inf, Parse;
    ParsedIsWellFormed(s);
    ParsedIsWellFormed(t);
    ShowIsInjective(Parse(s).value, Parse(t).value);
  }

  // --- where reading back fails ---------------------------------------------------

  /** x + x + ... with `plusses` operators, as the parser groups it. */
  function SumTree(plusses: nat): Node {
    if plusses == 0 then Identifier("x") else Binary(Plus, SumTree(plusses - 1), Identifier("x"))
  }

  lemma {:induction false} SumTreeNests(plusses: nat)
    ensures WellFormed(SumTree(plusses)) && Height(SumTree(plusses)) == plusses + 1
  {
    assert IsName("x");
    if plusses > 0 { SumTreeNests(plusses - 1); }
  }

  /** A sum of 65 terms or more has a canonical text that the parser refuses as nested too deep. */
  lemma LongSumDoesNotReadBack(plusses: nat)
    requires plusses >= 64
    ensures WellFormed(SumTree(plusses)) && Parse(Show(SumTree(plusses))).Err?
  {
    SumTreeNests(plusses);
    PrintThenParse(SumTree(plusses));
  }

  /** The source text of the same sum, and the tokens after its first term. */
  function SumText(plusses: nat): string {
    if plusses == 0 then "" else "+" + ("x" + SumText(plusses - 1))
  }

  function SumTokens(plusses: nat): seq<Token> {
    if plusses == 0 then [END] else [Token(OPERATOR, "+"), Token(IDENT, "x")] + SumTokens(plusses - 1)
  }

  lemma {:induction false} SumLexes(plusses: nat)
    ensures Lex(SumText(plusses)) == Ok(SumTokens(plusses)) && |SumText(plusses)| == 2 * plusses
    ensures |SumTokens(plusses)| == 2 * plusses + 1
  {
    if plusses == 0 {
      NothingLexes();
      hide Lex;
    } else {
      hide *;
      SumLexes(plusses - 1);
      PlusTermLexes(plusses - 1);
      SumUnfolds(plusses);
    }
  }

  lemma SumUnfolds(plusses: nat)
    requires plusses > 0
    ensures SumText(plusses) == "+" + ("x" + SumText(plusses - 1))
    ensures |SumText(plusses)| == 2 + |SumText(plusses - 1)|
    ensures SumTokens(plusses) == [Token(OPERATOR, "+")] + ([Token(IDENT, "x")] + SumTokens(plusses - 1))
  {
  }

  lemma NothingLexes()
    ensures Lex("") == Ok([END])
  {
  }

  lemma PlusTermLexes(plusses: nat)
    ensures Lex("+" + ("x" + SumText(plusses))) ==
      Prepend(Token(OPERATOR, "+"), Prepend(Token(IDENT, "x"), Lex(SumText(plusses))))
  {
    hide Lex;
    var rest := SumText(plusses);
    WordLexes("x", rest);
    assert WordToken("x") == Token(IDENT, "x");
    SymbolLexes("+", "x" + rest);
  }

  lemma {:induction false} SumEnds(plusses: nat)
    ensures |SumTokens(plusses)| == 2 * plusses + 1 && SumTokens(plusses)[2 * plusses] == END
  {
    if plusses > 0 { SumEnds(plusses - 1); }
  }

  lemma {:induction false} SumTokensAt(plusses: nat, k: nat)
    requires k < plusses
    ensures |SumTokens(plusses)| == 2 * plusses + 1
    ensures SumTokens(plusses)[2 * k] == Token(OPERATOR, "+") && SumTokens(plusses)[2 * k + 1] == Token(IDENT, "x")
    ensures SumTokens(plusses)[2 * plusses] == END
  {
    if k > 0 { SumTokensAt(plusses - 1, k - 1); }
    else if plusses > 1 { SumTokensAt(plusses - 1, 0); }
  }

  lemma TermReads(ts: seq<Token>, i: nat, k: nat)
    requires Closed(ts) && i + 1 < |ts| && ts[i] == Token(IDENT, "x") && k + 1 <= SOURCE_LIMITS.nodes
    requires ts[i + 1] == END || ts[i + 1] == Token(OPERATOR, "+")
    ensures Operand(SOURCE_LIMITS, AdditiveLevel, ts, i, k, 0) == Ok(Parsed(Identifier("x"), i + 1, k + 1))
  {
    assert Primary(SOURCE_LIMITS, ts, i, k, 0) == Ok(Parsed(Identifier("x"), i + 1, k + 1));
    OperandReads(SOURCE_LIMITS, AdditiveLevel, ts, i, k, 0, true, Identifier("x"), i + 1, k + 1);
  }

  /** After j terms, the rest of the sum is read onto the left. */
  lemma {:induction false} SumTailReads(ts: seq<Token>, plusses: nat, j: nat)
    requires j <= plusses && 2 * plusses + 1 <= SOURCE_LIMITS.nodes
    requires ts == [Token(IDENT, "x")] + SumTokens(plusses) && Closed(ts) && |ts| == 2 * plusses + 2
    ensures ChainTail(SOURCE_LIMITS, AdditiveLevel, ts, SumTree(j), 2 * j + 1, 2 * j + 1, 0)
         == Ok(Parsed(SumTree(plusses), 2 * plusses + 1, 2 * plusses + 1))
    decreases plusses - j
  {
    hide Operand, Closed, SumTokens;
    SumEnds(plusses);
    if j < plusses {
      SumTokensAt(plusses, j);
      if j + 1 < plusses { SumTokensAt(plusses, j + 1); }
      assert ts[2 * j + 1] == Token(OPERATOR, "+") && ts[2 * j + 2] == Token(IDENT, "x");
      TermReads(ts, 2 * j + 2, 2 * j + 2);
      SumTailReads(ts, plusses, j + 1);
    }
  }

  /** Such sums are ordinary sources: up to 1000 terms the parser accepts them, although from 65 terms on
      it refuses the canonical text it would hash.
    */
  lemma LongSumParses(plusses: nat)
    requires plusses <= 999
    ensures Parse("x" + SumText(plusses)) == Ok(SumTree(plusses))
  {
    hide Lex, Chain, NotExpr, SumTree, SumTokens, Closed;
    var ts := [Token(IDENT, "x")] + SumTokens(plusses);
    SumTokenizes(plusses);
    SumStart(ts, plusses);
    UpFromAdditive(SOURCE_LIMITS, ts, 0, 0, 0);
    UpFromNot(SOURCE_LIMITS, ts, 0, 0, 0);
  }

  lemma SumTokenizes(plusses: nat)
    requires plusses <= 999
    ensures Tokenize("x" + SumText(plusses)) == Ok([Token(IDENT, "x")] + SumTokens(plusses))
    ensures Closed([Token(IDENT, "x")] + SumTokens(plusses))
  {
    hide Lex, SumTokens;
    SumLexes(plusses);
    WordLexes("x", SumText(plusses));
    assert WordToken("x") == Token(IDENT, "x");
  }

  lemma SumStart(ts: seq<Token>, plusses: nat)
    requires plusses <= 999 && ts == [Token(IDENT, "x")] + SumTokens(plusses) && Closed(ts)
    ensures |ts| == 2 * plusses + 2 && ts[2 * plusses + 1] == END
    ensures Chain(SOURCE_LIMITS, AdditiveLevel, ts, 0, 0, 0)
         == Ok(Parsed(SumTree(plusses), 2 * plusses + 1, 2 * plusses + 1))
  {
    hide Operand, Lex, UnaryExpr, Primary;
    SumLexes(plusses);
    if plusses > 0 { SumTokensAt(plusses, 0); }
    TermReads(ts, 0, 0);
    SumTailReads(ts, plusses, 0);
  }
}
