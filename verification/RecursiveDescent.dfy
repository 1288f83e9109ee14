/** The recursive-descent parser (packages/engine/quanta_engine/dsl/parser.py): a token index, a node
    count and a nesting depth that its methods move, each method proved to follow the grammar.
    A raised ParseError is an Err result, after which the parser is not used again.
  */
module RecursiveDescent {
  import opened Wrappers
  import opened Syntax
  import opened Lexer
  import opened Grammar

  class Parser {
    const tokens: seq<Token>
    var index: nat
    var depth: nat
    var nodes: nat

    constructor (tokens: seq<Token>)
      requires Closed(tokens)
      ensures Valid() && this.tokens == tokens && index == 0 && depth == 0 && nodes == 0
    {
      this.tokens := tokens;
      index, depth, nodes := 0, 0, 0;
    }

    ghost predicate Valid()
      reads this
    {
      Closed(tokens) && index < |tokens|
    }

    /** The method returned what the grammar says and stands where the grammar says. */
    ghost predicate Matches(r: Result<Node, ParseError>, spec: Result<Parsed, ParseError>)
      reads this
    {
      match spec
      case Ok(p) => r == Ok(p.node) && index == p.next && nodes == p.nodes
      case Err(e) => r == Err(e)
    }

    /** Steps over a token that is not the end. */
    method Advance()
      requires Valid()
      modifies this`index
      ensures Valid() && index == if tokens[old(index)] == END then old(index) else old(index) + 1
    {
      if tokens[index].kind != EOF { index := index + 1; }
    }

    method CountNode() returns (within: bool)
      modifies this`nodes
      ensures nodes == old(nodes) + 1 && within == (nodes <= SOURCE_LIMITS.nodes)
    {
      nodes := nodes + 1;
      within := nodes <= SOURCE_LIMITS.nodes;
    }

    /** and_expr ("or" and_expr)* */
    method OrExpr() returns (r: Result<Node, ParseError>)
      requires Valid()
      modifies this
      ensures Valid() && depth == old(depth)
      ensures Matches(r, Chain(SOURCE_LIMITS, OrLevel, tokens, old(index), old(nodes), depth))
      decreases |tokens| - index, 11
    {
      r := AndExpr();
      if r.Err? { return; }
      var node := r.value;
      while OperatorOf(OrLevel, tokens[index]).Some?
        invariant Valid() && old(index) < index && depth == old(depth)
        invariant ChainTail(SOURCE_LIMITS, OrLevel, tokens, node, index, nodes, depth)
               == Chain(SOURCE_LIMITS, OrLevel, tokens, old(index), old(nodes), depth)
        decreases |tokens| - index
      {
        var op := OperatorOf(OrLevel, tokens[index]).value;
        Advance();
        var counted := CountNode();
        if !counted { return Err(TooComplex); }
        var right := AndExpr();
        if right.Err? { return right; }
        node := Binary(op, node, right.value);
      }
      r := Ok(node);
    }

    /** not_expr ("and" not_expr)* */
    method AndExpr() returns (r: Result<Node, ParseError>)
      requires Valid()
      modifies this
      ensures Valid() && depth == old(depth)
      ensures Matches(r, Chain(SOURCE_LIMITS, AndLevel, tokens, old(index), old(nodes), depth))
      decreases |tokens| - index, 9
    {
      r := NotExpression();
      if r.Err? { return; }
      var node := r.value;
      while OperatorOf(AndLevel, tokens[index]).Some?
        invariant Valid() && old(index) < index && depth == old(depth)
        invariant ChainTail(SOURCE_LIMITS, AndLevel, tokens, node, index, nodes, depth)
               == Chain(SOURCE_LIMITS, AndLevel, tokens, old(index), old(nodes), depth)
        decreases |tokens| - index
      {
        var op := OperatorOf(AndLevel, tokens[index]).value;
        Advance();
        var counted := CountNode();
        if !counted { return Err(TooComplex); }
        var right := NotExpression();
        if right.Err? { return right; }
        node := Binary(op, node, right.value);
      }
      r := Ok(node);
    }

    /** Any number of nots, then a comparison. */
    method NotExpression() returns (r: Result<Node, ParseError>)
      requires Valid()
      modifies this
      ensures Valid() && depth == old(depth)
      ensures Matches(r, NotExpr(SOURCE_LIMITS, tokens, old(index), old(nodes), depth))
      decreases |tokens| - index, 7
    {
      if tokens[index] == Token(KEYWORD, "not") {
        Advance();
        var counted := CountNode();
        if !counted { return Err(TooComplex); }
        r := NotExpression();
        if r.Ok? { r := Ok(Unary(Not, r.value)); }
      } else {
        r := ComparisonExpr();
      }
    }

    /** additive (comparison additive)?, never chained */
    method ComparisonExpr() returns (r: Result<Node, ParseError>)
      requires Valid()
      modifies this
      ensures Valid() && depth == old(depth)
      ensures Matches(r, Comparison(SOURCE_LIMITS, tokens, old(index), old(nodes), depth))
      decreases |tokens| - index, 6
    {
      r := Additive();
      if r.Err? { return; }
      var op := ComparisonOf(tokens[index]);
      if op.Some? {
        Advance();
        var counted := CountNode();
        if !counted { return Err(TooComplex); }
        var right := Additive();
        if right.Err? { return right; }
        if ComparisonOf(tokens[index]).Some? { return Err(ChainedComparison); }
        r := Ok(Binary(op.value, r.value, right.value));
      }
    }

    /** Products joined by plus and minus. */
    method Additive() returns (r: Result<Node, ParseError>)
      requires Valid()
      modifies this
      ensures Valid() && depth == old(depth)
      ensures Matches(r, Chain(SOURCE_LIMITS, AdditiveLevel, tokens, old(index), old(nodes), depth))
      decreases |tokens| - index, 5
    {
      r := Multiplicative();
      if r.Err? { return; }
      var node := r.value;
      while OperatorOf(AdditiveLevel, tokens[index]).Some?
        invariant Valid() && old(index) < index && depth == old(depth)
        invariant ChainTail(SOURCE_LIMITS, AdditiveLevel, tokens, node, index, nodes, depth)
               == Chain(SOURCE_LIMITS, AdditiveLevel, tokens, old(index), old(nodes), depth)
        decreases |tokens| - index
      {
        var op := OperatorOf(AdditiveLevel, tokens[index]).value;
        Advance();
        var counted := CountNode();
        if !counted { return Err(TooComplex); }
        var right := Multiplicative();
        if right.Err? { return right; }
        node := Binary(op, node, right.value);
      }
      r := Ok(node);
    }

    /** Unary expressions joined by times, over and percent. */
    method Multiplicative() returns (r: Result<Node, ParseError>)
      requires Valid()
      modifies this
      ensures Valid() && depth == old(depth)
      ensures Matches(r, Chain(SOURCE_LIMITS, MultiplicativeLevel, tokens, old(index), old(nodes), depth))
      decreases |tokens| - index, 3
    {
      r := UnaryExpression();
      if r.Err? { return; }
      var node := r.value;
      while OperatorOf(MultiplicativeLevel, tokens[index]).Some?
        invariant Valid() && old(index) < index && depth == old(depth)
        invariant ChainTail(SOURCE_LIMITS, MultiplicativeLevel, tokens, node, index, nodes, depth)
               == Chain(SOURCE_LIMITS, MultiplicativeLevel, tokens, old(index), old(nodes), depth)
        decreases |tokens| - index
      {
        var op := OperatorOf(MultiplicativeLevel, tokens[index]).value;
        Advance();
        var counted := CountNode();
        if !counted { return Err(TooComplex); }
        var right := UnaryExpression();
        if right.Err? { return right; }
        node := Binary(op, node, right.value);
      }
      r := Ok(node);
    }

    /** Any number of minus signs, then a primary. */
    method UnaryExpression() returns (r: Result<Node, ParseError>)
      requires Valid()
      modifies this
      ensures Valid() && depth == old(depth)
      ensures Matches(r, UnaryExpr(SOURCE_LIMITS, tokens, old(index), old(nodes), depth))
      decreases |tokens| - index, 1
    {
      if tokens[index] == Token(OPERATOR, "-") {
        Advance();
        var counted := CountNode();
        if !counted { return Err(TooComplex); }
        r := UnaryExpression();
        if r.Ok? { r := Ok(Unary(Negate, r.value)); }
      } else {
        r := PrimaryExpr();
      }
    }

    /** Opens one more primary and closes it again however the inside ends. */
    method PrimaryExpr() returns (r: Result<Node, ParseError>)
      requires Valid()
      modifies this
      ensures Valid() && depth == old(depth)
      ensures Matches(r, Primary(SOURCE_LIMITS, tokens, old(index), old(nodes), depth))
      decreases |tokens| - index, 0, 1
    {
      if depth + 1 > SOURCE_LIMITS.depth { return Err(TooDeep); }
      depth := depth + 1;
      r := PrimaryInner();
      depth := depth - 1;
    }

    method PrimaryInner() returns (r: Result<Node, ParseError>)
      requires Valid() && 1 <= depth <= SOURCE_LIMITS.depth
      modifies this
      ensures Valid() && depth == old(depth)
      ensures Matches(r, Primary(SOURCE_LIMITS, tokens, old(index), old(nodes), depth - 1))
      decreases |tokens| - index, 0, 0
    {
      var counted := CountNode();
      if !counted { return Err(TooComplex); }
      var token := tokens[index];
      match token.kind {
        case NUMBER =>
          Advance();
          var value := ReadNumber(token.value);
          r := if value.None? then Err(NotANumber) else Ok(Number(value.value));
        case KEYWORD =>
          if token.value == "true" || token.value == "false" {
            Advance();
            r := Ok(Boolean(token.value == "true"));
          } else {
            r := Err(KeywordStart);
          }
        case IDENT =>
          Advance();
          if tokens[index].kind == LPAREN {
            r := CallExpr(token);
          } else {
            r := Ok(Identifier(token.value));
          }
        case LPAREN =>
          Advance();
          r := OrExpr();
          if r.Err? { return; }
          if tokens[index].kind != RPAREN { return Err(Expected(RPAREN)); }
          Advance();
        case EOF => r := Err(EndsEarly);
        case _ => r := Err(UnexpectedToken);
      }
    }

    /** The arguments of a call whose name has been read. */
    method CallExpr(name: Token) returns (r: Result<Node, ParseError>)
      requires Valid() && tokens[index].kind == LPAREN
      modifies this
      ensures Valid() && depth == old(depth)
      ensures match Arguments(SOURCE_LIMITS, tokens, old(index) + 1, old(nodes), depth)
        case Err(e) => r == Err(e)
        case Ok(p) =>
          if tokens[p.next].kind != RPAREN then r == Err(Expected(RPAREN))
          else r == Ok(Call(name.value, p.args)) && index == p.next + 1 && nodes == p.nodes
      decreases |tokens| - index
    {
      Advance();
      var args: seq<Node> := [];
      if tokens[index].kind != RPAREN {
        var first := OrExpr();
        if first.Err? { return first; }
        args := [first.value];
        while tokens[index].kind == COMMA
          invariant Valid() && old(index) < index && depth == old(depth)
          invariant MoreArguments(SOURCE_LIMITS, tokens, args, index, nodes, depth)
                 == Arguments(SOURCE_LIMITS, tokens, old(index) + 1, old(nodes), depth)
          decreases |tokens| - index
        {
          Advance();
          var arg := OrExpr();
          if arg.Err? { return arg; }
          args := args + [arg.value];
          if |args| > SOURCE_LIMITS.args { return Err(TooManyArguments); }
        }
      }
      if tokens[index].kind != RPAREN { return Err(Expected(RPAREN)); }
      Advance();
      r := Ok(Call(name.value, args));
    }

    /** The whole token list. */
    method Run() returns (r: Result<Node, ParseError>)
      requires Valid() && index == 0 && depth == 0 && nodes == 0
      modifies this
      ensures r == ParseTokens(SOURCE_LIMITS, tokens)
    {
      if tokens[index].kind == EOF { return Err(Empty); }
      r := OrExpr();
      if r.Err? { return; }
      if tokens[index].kind != EOF { return Err(TrailingInput); }
    }
  }

  /** parse(source): the tokens, then the parser over them. */
  method ParseSource(source: string) returns (r: Result<Node, ParseError>)
    ensures r == Parse(source)
  {
    var tokens := TokenizeLoop(source);
    if tokens.Err? { return Err(tokens.error); }
    var parser := new Parser(tokens.value);
    r := parser.Run();
  }
}
