/** The grammar of packages/engine/quanta_engine/dsl/parser.py as functions.

    A parse function starts at token i with k nodes already counted and d primaries open, and
    says which node it builds, where it stops and how many nodes are counted by then.
    The source's budgets are a parameter; SOURCE_LIMITS are its own.
  */
module Grammar {
  import opened Wrappers
  import opened Syntax
  import opened Lexer

  datatype Limits = Limits(nodes: nat, depth: nat, args: nat)

  const SOURCE_LIMITS := Limits(2000, 64, 8)

  datatype Parsed = Parsed(node: Node, next: nat, nodes: nat)

  datatype ParsedArgs = ParsedArgs(args: seq<Node>, next: nat, nodes: nat)

  /** A token list as the lexer returns it: END last and nowhere else. */
  predicate Closed(ts: seq<Token>) {
    && |ts| > 0 && ts[|ts| - 1] == END
    && forall k :: 0 <= k < |ts| - 1 ==> ts[k].kind != EOF
  }

  /** The four levels that read operands separated by left-associative operators. */
  datatype Level = OrLevel | AndLevel | AdditiveLevel | MultiplicativeLevel

  function OperatorOf(level: Level, t: Token): Option<BinaryOp> {
    match level
    case OrLevel => if t == Token(KEYWORD, "or") then Some(Either) else None
    case AndLevel => if t == Token(KEYWORD, "and") then Some(Both) else None
    case AdditiveLevel =>
      if t == Token(OPERATOR, "+") then Some(Plus)
      else if t == Token(OPERATOR, "-") then Some(Minus) else None
    case MultiplicativeLevel =>
      if t == Token(OPERATOR, "*") then Some(Times)
      else if t == Token(OPERATOR, "/") then Some(Over)
      else if t == Token(OPERATOR, "%") then Some(Percent) else None
  }

  function ComparisonOf(t: Token): Option<BinaryOp> {
    if t.kind != OPERATOR then None
    else if t.value == "<" then Some(Less) else if t.value == "<=" then Some(LessEqual)
    else if t.value == ">" then Some(Greater) else if t.value == ">=" then Some(GreaterEqual)
    else if t.value == "==" then Some(Same) else if t.value == "!=" then Some(Different) else None
  }

  function PointAt(s: string): (p: nat)
    ensures p <= |s| && (p < |s| ==> s[p] == '.')
    ensures forall k :: 0 <= k < p ==> s[k] != '.'
  {
    if s == "" || s[0] == '.' then 0 else 1 + PointAt(s[1..])
  }

  /** float() of a number token; None is its ValueError. */
  function ReadNumber(s: string): (d: Option<Decimal>)
    ensures d.Some? ==> d.value.Normal()
  {
    var p := PointAt(s);
    var whole, frac := s[..p], if p < |s| then s[p + 1..] else "";
    if AllDigits(whole) && AllDigits(frac) && |whole| + |frac| > 0 then Some(Normalise(whole, frac)) else None
  }

  function Rank(level: Level): nat {
    match level
    case MultiplicativeLevel => 3
    case AdditiveLevel => 5
    case AndLevel => 9
    case OrLevel => 11
  }

  function Operand(lim: Limits, level: Level, ts: seq<Token>, i: nat, k: nat, d: nat): (r: Result<Parsed, ParseError>)
    requires Closed(ts) && i < |ts|
    ensures r.Ok? ==> i < r.value.next < |ts|
    decreases |ts| - i, Rank(level) - 1
  {
    match level
    case OrLevel => Chain(lim, AndLevel, ts, i, k, d)
    case AndLevel => NotExpr(lim, ts, i, k, d)
    case AdditiveLevel => Chain(lim, MultiplicativeLevel, ts, i, k, d)
    case MultiplicativeLevel => UnaryExpr(lim, ts, i, k, d)
  }

  function Chain(lim: Limits, level: Level, ts: seq<Token>, i: nat, k: nat, d: nat): (r: Result<Parsed, ParseError>)
    requires Closed(ts) && i < |ts|
    ensures r.Ok? ==> i < r.value.next < |ts|
    decreases |ts| - i, Rank(level)
  {
    var first :- Operand(lim, level, ts, i, k, d);
    ChainTail(lim, level, ts, first.node, first.next, first.nodes, d)
  }

  function ChainTail(lim: Limits, level: Level, ts: seq<Token>, left: Node, i: nat, k: nat, d: nat)
    : (r: Result<Parsed, ParseError>)
    requires Closed(ts) && i < |ts|
    ensures r.Ok? ==> i <= r.value.next < |ts|
    decreases |ts| - i, 0
  {
    var op := OperatorOf(level, ts[i]);
    if op.None? then Ok(Parsed(left, i, k))
    else if k + 1 > lim.nodes then Err(TooComplex)
    else
      var right :- Operand(lim, level, ts, i + 1, k + 1, d);
      ChainTail(lim, level, ts, Binary(op.value, left, right.node), right.next, right.nodes, d)
  }

  function NotExpr(lim: Limits, ts: seq<Token>, i: nat, k: nat, d: nat): (r: Result<Parsed, ParseError>)
    requires Closed(ts) && i < |ts|
    ensures r.Ok? ==> i < r.value.next < |ts|
    decreases |ts| - i, 7
  {
    if ts[i] == Token(KEYWORD, "not") then
      if k + 1 > lim.nodes then Err(TooComplex)
      else
        var operand :- NotExpr(lim, ts, i + 1, k + 1, d);
        Ok(Parsed(Unary(Not, operand.node), operand.next, operand.nodes))
    else Comparison(lim, ts, i, k, d)
  }

  function Comparison(lim: Limits, ts: seq<Token>, i: nat, k: nat, d: nat): (r: Result<Parsed, ParseError>)
    requires Closed(ts) && i < |ts|
    ensures r.Ok? ==> i < r.value.next < |ts|
    decreases |ts| - i, 6
  {
    var left :- Chain(lim, AdditiveLevel, ts, i, k, d);
    var op := ComparisonOf(ts[left.next]);
    if op.None? then Ok(left)
    else if left.nodes + 1 > lim.nodes then Err(TooComplex)
    else
      var right :- Chain(lim, AdditiveLevel, ts, left.next + 1, left.nodes + 1, d);
      if ComparisonOf(ts[right.next]).Some? then Err(ChainedComparison)
      else Ok(Parsed(Binary(op.value, left.node, right.node), right.next, right.nodes))
  }

  function UnaryExpr(lim: Limits, ts: seq<Token>, i: nat, k: nat, d: nat): (r: Result<Parsed, ParseError>)
    requires Closed(ts) && i < |ts|
    ensures r.Ok? ==> i < r.value.next < |ts|
    decreases |ts| - i, 1
  {
    if ts[i] == Token(OPERATOR, "-") then
      if k + 1 > lim.nodes then Err(TooComplex)
      else
        var operand :- UnaryExpr(lim, ts, i + 1, k + 1, d);
        Ok(Parsed(Unary(Negate, operand.node), operand.next, operand.nodes))
    else Primary(lim, ts, i, k, d)
  }

  function Primary(lim: Limits, ts: seq<Token>, i: nat, k: nat, d: nat): (r: Result<Parsed, ParseError>)
    requires Closed(ts) && i < |ts|
    ensures r.Ok? ==> i < r.value.next < |ts|
    decreases |ts| - i, 0
  {
    var t := ts[i];
    if d + 1 > lim.depth then Err(TooDeep)
    else if k + 1 > lim.nodes then Err(TooComplex)
    else match t.kind
      case NUMBER =>
        var value := ReadNumber(t.value);
        if value.None? then Err(NotANumber) else Ok(Parsed(Number(value.value), i + 1, k + 1))
      case KEYWORD =>
        if t.value == "true" || t.value == "false" then Ok(Parsed(Boolean(t.value == "true"), i + 1, k + 1))
        else Err(KeywordStart)
      case IDENT =>
        if ts[i + 1].kind == LPAREN then
          var args :- Arguments(lim, ts, i + 2, k + 1, d + 1);
          if ts[args.next].kind != RPAREN then Err(Expected(RPAREN))
          else Ok(Parsed(Call(t.value, args.args), args.next + 1, args.nodes))
        else Ok(Parsed(Identifier(t.value), i + 1, k + 1))
      case LPAREN =>
        var inner :- Chain(lim, OrLevel, ts, i + 1, k + 1, d + 1);
        if ts[inner.next].kind != RPAREN then Err(Expected(RPAREN))
        else Ok(Parsed(inner.node, inner.next + 1, inner.nodes))
      case EOF => Err(EndsEarly)
      case _ => Err(UnexpectedToken)
  }

  /** The arguments of a call, up to but not including the closing parenthesis. */
  function Arguments(lim: Limits, ts: seq<Token>, i: nat, k: nat, d: nat): (r: Result<ParsedArgs, ParseError>)
    requires Closed(ts) && i < |ts|
    ensures r.Ok? ==> i <= r.value.next < |ts|
    decreases |ts| - i, 12
  {
    if ts[i].kind == RPAREN then Ok(ParsedArgs([], i, k))
    else
      var first :- Chain(lim, OrLevel, ts, i, k, d);
      MoreArguments(lim, ts, [first.node], first.next, first.nodes, d)
  }

  function MoreArguments(lim: Limits, ts: seq<Token>, args: seq<Node>, i: nat, k: nat, d: nat)
    : (r: Result<ParsedArgs, ParseError>)
    requires Closed(ts) && i < |ts|
    ensures r.Ok? ==> i <= r.value.next < |ts|
    decreases |ts| - i, 0
  {
    if ts[i].kind != COMMA then Ok(ParsedArgs(args, i, k))
    else
      var arg :- Chain(lim, OrLevel, ts, i + 1, k, d);
      if |args| + 1 > lim.args then Err(TooManyArguments)
      else MoreArguments(lim, ts, args + [arg.node], arg.next, arg.nodes, d)
  }

  /** A whole token list as one expression. */
  function ParseTokens(lim: Limits, ts: seq<Token>): Result<Node, ParseError>
    requires Closed(ts)
  {
    if ts[0].kind == EOF then Err(Empty)
    else
      var whole :- Chain(lim, OrLevel, ts, 0, 0, 0);
      if ts[whole.next].kind != EOF then Err(TrailingInput) else Ok(whole.node)
  }

  /** parse(source). */
  function Parse(source: string): Result<Node, ParseError> {
    var ts :- Tokenize(source);
    ParseTokens(SOURCE_LIMITS, ts)
  }
}
