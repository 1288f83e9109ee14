/** The parser reads a printed tree back, exactly when the tree is within the parser's budgets. */
module ParsesBack {
  import opened Wrappers
  import opened Collections
  import opened Syntax
  import opened Lexer
  import opened Grammar

  // --- what a printed tree costs ------------------------------------------

  function OpToken(op: BinaryOp): Token {
    Token(if op.Both? || op.Either? then KEYWORD else OPERATOR, OpText(op))
  }

  function SignToken(op: UnaryOp): Token {
    if op.Not? then Token(KEYWORD, "not") else Token(OPERATOR, "-")
  }

  const LEFT := Token(LPAREN, "(")
  const RIGHT := Token(RPAREN, ")")
  const NEXT := Token(COMMA, ",")

  /** The tokens of a tree's rendering. */
  function TokensOf(n: Node): (ts: seq<Token>)
    requires WellFormed(n)
    ensures |ts| > 0
    decreases n, 0
  {
    match n
    case Number(d) => [Token(if d.Infinite? then IDENT else NUMBER, ShowDecimal(d))]
    case Boolean(b) => [Token(KEYWORD, if b then "true" else "false")]
    case Identifier(name) => [Token(IDENT, name)]
    case Call(name, args) => [Token(IDENT, name), LEFT] + ArgTokens(args) + [RIGHT]
    case Unary(op, x) => [LEFT, SignToken(op)] + TokensOf(x) + [RIGHT]
    case Binary(op, l, r) => [LEFT] + TokensOf(l) + [OpToken(op)] + TokensOf(r) + [RIGHT]
  }

  function ArgTokens(args: seq<Node>): seq<Token>
    requires forall a :: a in args ==> WellFormed(a)
    decreases args, 1
  {
    if |args| == 0 then []
    else if |args| == 1 then TokensOf(args[0])
    else TokensOf(args[0]) + [NEXT] + ArgTokens(args[1..])
  }

  /** Nodes the parser counts while reading the rendering: its parentheses count as well. */
  function Cost(n: Node): nat
    decreases n, 0
  {
    match n
    case Call(_, args) => 1 + ArgsCost(args)
    case Unary(_, x) => 2 + Cost(x)
    case Binary(_, l, r) => 2 + Cost(l) + Cost(r)
    case _ => 1
  }

  function ArgsCost(args: seq<Node>): nat
    decreases args, 1
  {
    if |args| == 0 then 0 else Cost(args[0]) + ArgsCost(args[1..])
  }

  function MaxNat(a: nat, b: nat): nat { if a < b then b else a }

  /** How deep the rendering nests: every operator adds its parentheses. */
  function Height(n: Node): nat
    decreases n, 0
  {
    match n
    case Call(_, args) => 1 + ArgsHeight(args)
    case Unary(_, x) => 1 + Height(x)
    case Binary(_, l, r) => 1 + MaxNat(Height(l), Height(r))
    case _ => 1
  }

  function ArgsHeight(args: seq<Node>): nat
    decreases args, 1
  {
    if |args| == 0 then 0 else MaxNat(Height(args[0]), ArgsHeight(args[1..]))
  }

  predicate ArgsFit(n: Node, most: nat) {
    match n
    case Call(_, args) => |args| <= most && forall a :: a in args ==> ArgsFit(a, most)
    case Unary(_, x) => ArgsFit(x, most)
    case Binary(_, l, r) => ArgsFit(l, most) && ArgsFit(r, most)
    case _ => true
  }

  predicate Fits(lim: Limits, n: Node, k: nat, d: nat) {
    k + Cost(n) <= lim.nodes && d + Height(n) <= lim.depth && ArgsFit(n, lim.args)
  }

  // --- numbers ------------------------------------------------------------

  lemma {:induction false} StripLeftNormal(s: string)
    requires |s| > 0 && AllDigits(s) && (|s| == 1 || s[0] != '0')
    ensures OrZero(StripLeft(s)) == s
  {
    if s[0] == '0' { assert s == "0" && s[1..] == ""; } else { assert StripLeft(s) == s; }
  }

  lemma {:induction false} StripRightNormal(s: string)
    requires |s| > 0 && AllDigits(s) && (|s| == 1 || s[|s| - 1] != '0')
    ensures OrZero(StripRight(s)) == s
  {
    if s[|s| - 1] == '0' { assert s == "0" && s[..0] == ""; }
  }

  lemma {:induction false} PointAfter(whole: string, frac: string)
    requires AllDigits(whole)
    ensures PointAt(whole + "." + frac) == |whole|
  {
    var s := whole + "." + frac;
    if whole != "" {
      assert s[1..] == whole[1..] + "." + frac;
      PointAfter(whole[1..], frac);
    }
  }

  lemma NumberReadsBack(d: Decimal)
    requires d.Normal() && d.Plain()
    ensures ReadNumber(ShowDecimal(d)) == Some(d)
  {
    var s := d.whole + "." + d.frac;
    PointAfter(d.whole, d.frac);
    assert s[..|d.whole|] == d.whole && s[|d.whole| + 1..] == d.frac;
    StripLeftNormal(d.whole);
    StripRightNormal(d.frac);
  }

  // --- climbing the grammar -------------------------------------------------

  /** 0 for the tightest operators up to 4 for `or`; 5 for a token no level continues on. */
  function Looseness(t: Token): nat {
    if OperatorOf(MultiplicativeLevel, t).Some? then 0
    else if OperatorOf(AdditiveLevel, t).Some? then 1
    else if ComparisonOf(t).Some? then 2
    else if OperatorOf(AndLevel, t).Some? then 3
    else if OperatorOf(OrLevel, t).Some? then 4
    else 5
  }

  predicate StartsPrimary(t: Token) {
    t != Token(OPERATOR, "-") && t != Token(KEYWORD, "not")
  }

  lemma UpFromAnd(lim: Limits, ts: seq<Token>, i: nat, k: nat, d: nat)
    requires Closed(ts) && i < |ts|
    ensures var p := Chain(lim, AndLevel, ts, i, k, d);
      && (p.Err? ==> Chain(lim, OrLevel, ts, i, k, d).Err?)
      && (p.Ok? && Looseness(ts[p.value.next]) == 5 ==> Chain(lim, OrLevel, ts, i, k, d) == p)
  {
  }

  lemma UpFromNot(lim: Limits, ts: seq<Token>, i: nat, k: nat, d: nat)
    requires Closed(ts) && i < |ts|
    ensures var p := NotExpr(lim, ts, i, k, d);
      && (p.Err? ==> Chain(lim, AndLevel, ts, i, k, d).Err? && Chain(lim, OrLevel, ts, i, k, d).Err?)
      && (p.Ok? && Looseness(ts[p.value.next]) >= 4 ==> Chain(lim, AndLevel, ts, i, k, d) == p)
      && (p.Ok? && Looseness(ts[p.value.next]) == 5 ==> Chain(lim, OrLevel, ts, i, k, d) == p)
  {
    UpFromAnd(lim, ts, i, k, d);
  }

  lemma UpFromAdditive(lim: Limits, ts: seq<Token>, i: nat, k: nat, d: nat)
    requires Closed(ts) && i < |ts| && ts[i] != Token(KEYWORD, "not")
    ensures var p := Chain(lim, AdditiveLevel, ts, i, k, d);
      && (p.Err? ==> NotExpr(lim, ts, i, k, d).Err?)
      && (p.Ok? && Looseness(ts[p.value.next]) >= 3 ==> NotExpr(lim, ts, i, k, d) == p)
  {
  }

  lemma UpFromMultiplicative(lim: Limits, ts: seq<Token>, i: nat, k: nat, d: nat)
    requires Closed(ts) && i < |ts|
    ensures var p := Chain(lim, MultiplicativeLevel, ts, i, k, d);
      && (p.Err? ==> Chain(lim, AdditiveLevel, ts, i, k, d).Err?)
      && (p.Ok? && Looseness(ts[p.value.next]) >= 2 ==> Chain(lim, AdditiveLevel, ts, i, k, d) == p)
  {
  }

  lemma UpFromUnary(lim: Limits, ts: seq<Token>, i: nat, k: nat, d: nat)
    requires Closed(ts) && i < |ts|
    ensures var p := UnaryExpr(lim, ts, i, k, d);
      && (p.Err? ==> Chain(lim, MultiplicativeLevel, ts, i, k, d).Err?)
      && (p.Ok? && Looseness(ts[p.value.next]) >= 1 ==> Chain(lim, MultiplicativeLevel, ts, i, k, d) == p)
  {
  }

  /** From a unary expression followed by a token that no level continues on, all the way up. */
  lemma Climb(lim: Limits, ts: seq<Token>, i: nat, k: nat, d: nat)
    requires Closed(ts) && i < |ts| && ts[i] != Token(KEYWORD, "not")
    ensures var p := UnaryExpr(lim, ts, i, k, d);
      && (p.Err? ==> Chain(lim, OrLevel, ts, i, k, d).Err?)
      && (p.Ok? && Looseness(ts[p.value.next]) == 5 ==> Chain(lim, OrLevel, ts, i, k, d) == p)
  {
    UpFromUnary(lim, ts, i, k, d);
    UpFromMultiplicative(lim, ts, i, k, d);
    UpFromAdditive(lim, ts, i, k, d);
    UpFromNot(lim, ts, i, k, d);
  }

  // --- slices -----------------------------------------------------------------

  /** us stands in ts from i on, and something follows it. */
  predicate At(ts: seq<Token>, i: nat, us: seq<Token>) {
    i + |us| < |ts| && ts[i..i + |us|] == us
  }

  lemma AtSplit(ts: seq<Token>, i: nat, a: seq<Token>, b: seq<Token>)
    requires At(ts, i, a + b)
    ensures At(ts, i, a) && At(ts, i + |a|, b)
  {
    var whole := ts[i..i + |a + b|];
    assert whole[..|a|] == a && whole[|a|..] == b;
    assert ts[i..i + |a|] == whole[..|a|];
    assert ts[i + |a|..i + |a| + |b|] == whole[|a|..];
  }

  lemma AtBound(ts: seq<Token>, i: nat, us: seq<Token>)
    requires At(ts, i, us)
    ensures i + |us| < |ts|
  {
  }

  lemma AtHead(ts: seq<Token>, i: nat, t: Token, rest: seq<Token>)
    requires At(ts, i, [t] + rest)
    ensures ts[i] == t && At(ts, i + 1, rest)
  {
    AtSplit(ts, i, [t], rest);
    assert ts[i..i + 1][0] == t;
  }

  lemma FirstTokenStartsPrimary(lim: Limits, ts: seq<Token>, i: nat, n: Node)
    requires Readable(lim, ts, i, n)
    ensures i + |TokensOf(n)| < |ts| && StartsPrimary(ts[i]) && ts[i].kind != RPAREN
  {
    assert ts[i..i + |TokensOf(n)|][0] == TokensOf(n)[0];
  }

  // --- the theorem, over one primary ------------------------------------------

  /** r reads n up to `next` with `nodes` counted, if it fits; otherwise r is an error. */
  predicate Reads(r: Result<Parsed, ParseError>, fits: bool, n: Node, next: nat, nodes: nat) {
    if fits then r == Ok(Parsed(n, next, nodes)) else r.Err?
  }

  predicate Readable(lim: Limits, ts: seq<Token>, i: nat, n: Node) {
    && Closed(ts) && lim.args >= 1 && WellFormed(n) && Plain(n)
    && At(ts, i, TokensOf(n)) && ts[i + |TokensOf(n)|].kind != LPAREN
  }

  lemma LeafPrimary(lim: Limits, ts: seq<Token>, i: nat, k: nat, d: nat, n: Node)
    requires Closed(ts) && i + 1 < |ts| && (n.Number? || n.Boolean? || n.Identifier?)
    requires WellFormed(n) && Plain(n) && TokensOf(n)[0] == ts[i] && ts[i + 1].kind != LPAREN
    ensures Reads(Primary(lim, ts, i, k, d), Fits(lim, n, k, d), n, i + 1, k + 1)
  {
    hide Chain, Arguments, ReadNumber, ShowDecimal;
    if n.Number? { NumberReadsBack(n.value); }
  }

  lemma LeafReads(lim: Limits, ts: seq<Token>, i: nat, k: nat, d: nat, n: Node)
    requires Readable(lim, ts, i, n) && (n.Number? || n.Boolean? || n.Identifier?)
    ensures Reads(Primary(lim, ts, i, k, d), Fits(lim, n, k, d), n, i + |TokensOf(n)|, k + Cost(n))
  {
    hide Primary, Fits;
    assert TokensOf(n) == [TokensOf(n)[0]] + [];
    AtHead(ts, i, TokensOf(n)[0], []);
    LeafPrimary(lim, ts, i, k, d, n);
  }

  lemma {:induction false} PrimaryReads(lim: Limits, ts: seq<Token>, i: nat, k: nat, d: nat, n: Node)
    requires Readable(lim, ts, i, n)
    ensures Reads(Primary(lim, ts, i, k, d), Fits(lim, n, k, d), n, i + |TokensOf(n)|, k + Cost(n))
    decreases n, 1
  {
    hide *;
    match n {
      case Call(_, _) => CallReads(lim, ts, i, k, d, n);
      case Unary(_, _) => UnaryReads(lim, ts, i, k, d, n);
      case Binary(_, _, _) => BinaryReads(lim, ts, i, k, d, n);
      case _ => LeafReads(lim, ts, i, k, d, n);
    }
  }

  /** The same, at the top of the grammar, before a token no level continues on. */
  lemma {:induction false} ExpressionReads(lim: Limits, ts: seq<Token>, i: nat, k: nat, d: nat, n: Node)
    requires Readable(lim, ts, i, n) && Looseness(ts[i + |TokensOf(n)|]) == 5
    ensures Reads(Chain(lim, OrLevel, ts, i, k, d), Fits(lim, n, k, d), n, i + |TokensOf(n)|, k + Cost(n))
    decreases n, 2
  {
    hide Chain, Primary, Cost, Height, TokensOf, WellFormed, Plain;
    FirstTokenStartsPrimary(lim, ts, i, n);
    PrimaryReads(lim, ts, i, k, d, n);
    Climb(lim, ts, i, k, d);
  }

  // --- operators ----------------------------------------------------------------

  /** An expression between parentheses is a primary. */
  lemma Parenthesised(lim: Limits, ts: seq<Token>, i: nat, k: nat, d: nat, fits: bool, n: Node, next: nat, nodes: nat)
    requires Closed(ts) && i + 1 < |ts| && next < |ts| && ts[i] == LEFT && ts[next] == RIGHT
    requires Reads(Chain(lim, OrLevel, ts, i + 1, k + 1, d + 1), fits, n, next, nodes)
    ensures Reads(Primary(lim, ts, i, k, d), d + 1 <= lim.depth && k + 1 <= lim.nodes && fits, n, next + 1, nodes)
  {
  }

  lemma UnaryIsPrimary(lim: Limits, ts: seq<Token>, i: nat, k: nat, d: nat)
    requires Closed(ts) && i < |ts| && StartsPrimary(ts[i])
    ensures UnaryExpr(lim, ts, i, k, d) == Primary(lim, ts, i, k, d)
  {
  }

  /** A sign and then a primary, up to a closing parenthesis. */
  lemma SignReads(lim: Limits, ts: seq<Token>, i: nat, k: nat, d: nat, fits: bool, op: UnaryOp, x: Node,
                  next: nat, nodes: nat)
    requires Closed(ts) && i + 1 < |ts| && next < |ts|
    requires ts[i] == SignToken(op) && StartsPrimary(ts[i + 1]) && ts[next] == RIGHT
    requires Reads(Primary(lim, ts, i + 1, k + 1, d), fits, x, next, nodes)
    ensures Reads(Chain(lim, OrLevel, ts, i, k, d), k + 1 <= lim.nodes && fits, Unary(op, x), next, nodes)
  {
    hide Primary, UnaryExpr, NotExpr, Chain, Closed;
    UnaryIsPrimary(lim, ts, i + 1, k + 1, d);
    if op.Not? {
      NotReads(lim, ts, i, k, d, fits, x, next, nodes);
    } else {
      MinusReads(lim, ts, i, k, d, fits, x, next, nodes);
      Climb(lim, ts, i, k, d);
    }
  }

  lemma MinusReads(lim: Limits, ts: seq<Token>, i: nat, k: nat, d: nat, fits: bool, x: Node, next: nat, nodes: nat)
    requires Closed(ts) && i + 1 < |ts| && ts[i] == Token(OPERATOR, "-")
    requires Reads(UnaryExpr(lim, ts, i + 1, k + 1, d), fits, x, next, nodes)
    ensures Reads(UnaryExpr(lim, ts, i, k, d), k + 1 <= lim.nodes && fits, Unary(Negate, x), next, nodes)
  {
    hide Primary;
  }

  lemma NotReads(lim: Limits, ts: seq<Token>, i: nat, k: nat, d: nat, fits: bool, x: Node, next: nat, nodes: nat)
    requires Closed(ts) && i + 1 < |ts| && next < |ts|
    requires ts[i] == Token(KEYWORD, "not") && StartsPrimary(ts[i + 1]) && ts[next] == RIGHT
    requires Reads(UnaryExpr(lim, ts, i + 1, k + 1, d), fits, x, next, nodes)
    ensures Reads(Chain(lim, OrLevel, ts, i, k, d), k + 1 <= lim.nodes && fits, Unary(Not, x), next, nodes)
  {
    assert Reads(NotExpr(lim, ts, i + 1, k + 1, d), fits, x, next, nodes) by {
      hide Chain, UnaryExpr, NotExpr;
      UpFromUnary(lim, ts, i + 1, k + 1, d);
      UpFromMultiplicative(lim, ts, i + 1, k + 1, d);
      UpFromAdditive(lim, ts, i + 1, k + 1, d);
    }
    assert Reads(NotExpr(lim, ts, i, k, d), k + 1 <= lim.nodes && fits, Unary(Not, x), next, nodes);
    hide Chain, UnaryExpr, NotExpr;
    UpFromNot(lim, ts, i, k, d);
  }

  lemma SignLayout(ts: seq<Token>, i: nat, sign: Token, xs: seq<Token>)
    requires At(ts, i, [LEFT, sign] + xs + [RIGHT])
    ensures i + 2 + |xs| < |ts|
    ensures ts[i] == LEFT && ts[i + 1] == sign && At(ts, i + 2, xs) && ts[i + 2 + |xs|] == RIGHT
  {
    AtSplit(ts, i, [LEFT, sign] + xs, [RIGHT]);
    AtHead(ts, i + 2 + |xs|, RIGHT, []);
    AtSplit(ts, i, [LEFT, sign], xs);
    assert [LEFT, sign] == [LEFT] + [sign];
    AtHead(ts, i, LEFT, [sign]);
    AtHead(ts, i + 1, sign, []);
  }

  lemma UnaryParts(lim: Limits, ts: seq<Token>, i: nat, n: Node)
    requires n.Unary? && Readable(lim, ts, i, n)
    ensures Closed(ts) && WellFormed(n) && WellFormed(n.operand) && Readable(lim, ts, i + 2, n.operand)
    ensures ts[i] == LEFT && ts[i + 1] == SignToken(n.uop) && ts[i + 2 + |TokensOf(n.operand)|] == RIGHT
    ensures |TokensOf(n)| == |TokensOf(n.operand)| + 3
  {
    hide Cost, Height, At, Closed;
    SignLayout(ts, i, SignToken(n.uop), TokensOf(n.operand));
  }

  lemma FitsUnary(lim: Limits, n: Node, k: nat, d: nat)
    requires n.Unary?
    ensures Cost(n) == 2 + Cost(n.operand)
    ensures Fits(lim, n, k, d) <==>
      d + 1 <= lim.depth && k + 1 <= lim.nodes && k + 2 <= lim.nodes && Fits(lim, n.operand, k + 2, d + 1)
  {
  }

  lemma {:induction false} UnaryReads(lim: Limits, ts: seq<Token>, i: nat, k: nat, d: nat, n: Node)
    requires n.Unary? && Readable(lim, ts, i, n)
    ensures Reads(Primary(lim, ts, i, k, d), Fits(lim, n, k, d), n, i + |TokensOf(n)|, k + Cost(n))
    decreases n, 0
  {
    hide *;
    UnaryParts(lim, ts, i, n);
    FitsUnary(lim, n, k, d);
    var x := n.operand;
    var next := i + 2 + |TokensOf(x)|;
    FirstTokenStartsPrimary(lim, ts, i + 2, x);
    PrimaryReads(lim, ts, i + 2, k + 2, d + 1, x);
    SignReads(lim, ts, i + 1, k + 1, d + 1, Fits(lim, x, k + 2, d + 1), n.uop, x, next, k + 2 + Cost(x));
    Parenthesised(lim, ts, i, k, d, k + 2 <= lim.nodes && Fits(lim, x, k + 2, d + 1), n, next, k + 2 + Cost(x));
  }

  /** A primary read as an operand of a level at least as loose as nothing that follows it. */
  lemma OperandReads(lim: Limits, level: Level, ts: seq<Token>, i: nat, k: nat, d: nat, fits: bool, n: Node,
                     next: nat, nodes: nat)
    requires Closed(ts) && i < |ts| && next < |ts| && StartsPrimary(ts[i])
    requires Reads(Primary(lim, ts, i, k, d), fits, n, next, nodes)
    requires Looseness(ts[next]) >= match level
      case MultiplicativeLevel => 0 case AdditiveLevel => 1 case AndLevel => 3 case OrLevel => 4
    ensures Reads(Operand(lim, level, ts, i, k, d), fits, n, next, nodes)
  {
    UnaryIsPrimary(lim, ts, i, k, d);
    hide Primary, UnaryExpr, Chain, NotExpr;
    UpFromUnary(lim, ts, i, k, d);
    UpFromMultiplicative(lim, ts, i, k, d);
    UpFromAdditive(lim, ts, i, k, d);
    UpFromNot(lim, ts, i, k, d);
  }

  lemma ComparandReads(lim: Limits, ts: seq<Token>, i: nat, k: nat, d: nat, fits: bool, n: Node, next: nat, nodes: nat)
    requires Closed(ts) && i < |ts| && next < |ts| && StartsPrimary(ts[i])
    requires Reads(Primary(lim, ts, i, k, d), fits, n, next, nodes) && Looseness(ts[next]) >= 2
    ensures Reads(Chain(lim, AdditiveLevel, ts, i, k, d), fits, n, next, nodes)
  {
    UnaryIsPrimary(lim, ts, i, k, d);
    hide Primary, UnaryExpr, Chain, NotExpr;
    UpFromUnary(lim, ts, i, k, d);
    UpFromMultiplicative(lim, ts, i, k, d);
  }

  /** One operator of a level between its two operands. */
  lemma LevelReads(lim: Limits, level: Level, ts: seq<Token>, i: nat, k: nat, d: nat, op: BinaryOp,
                   fitsL: bool, l: Node, mid: nat, nodesL: nat, fitsR: bool, r: Node, next: nat, nodes: nat)
    requires Closed(ts) && i < |ts| && mid + 1 < |ts| && next < |ts|
    requires Reads(Operand(lim, level, ts, i, k, d), fitsL, l, mid, nodesL)
    requires OperatorOf(level, ts[mid]) == Some(op) && ts[next] == RIGHT
    requires Reads(Operand(lim, level, ts, mid + 1, nodesL + 1, d), fitsR, r, next, nodes)
    ensures Reads(Chain(lim, level, ts, i, k, d), fitsL && nodesL + 1 <= lim.nodes && fitsR,
                  Binary(op, l, r), next, nodes)
  {
    hide Operand;
    assert ChainTail(lim, level, ts, Binary(op, l, r), next, nodes, d) == Ok(Parsed(Binary(op, l, r), next, nodes));
  }

  lemma ComparisonReads(lim: Limits, ts: seq<Token>, i: nat, k: nat, d: nat, op: BinaryOp,
                        fitsL: bool, l: Node, mid: nat, nodesL: nat, fitsR: bool, r: Node, next: nat, nodes: nat)
    requires Closed(ts) && i < |ts| && mid + 1 < |ts| && next < |ts| && ts[i] != Token(KEYWORD, "not")
    requires Reads(Chain(lim, AdditiveLevel, ts, i, k, d), fitsL, l, mid, nodesL)
    requires ComparisonOf(ts[mid]) == Some(op) && ts[next] == RIGHT
    requires Reads(Chain(lim, AdditiveLevel, ts, mid + 1, nodesL + 1, d), fitsR, r, next, nodes)
    ensures Reads(NotExpr(lim, ts, i, k, d), fitsL && nodesL + 1 <= lim.nodes && fitsR,
                  Binary(op, l, r), next, nodes)
  {
    hide Chain;
  }

  lemma BodyReads(lim: Limits, ts: seq<Token>, i: nat, k: nat, d: nat, op: BinaryOp,
                  fitsL: bool, l: Node, mid: nat, nodesL: nat, fitsR: bool, r: Node, next: nat, nodes: nat)
    requires Closed(ts) && i < |ts| && mid + 1 < |ts| && next < |ts|
    requires StartsPrimary(ts[i]) && StartsPrimary(ts[mid + 1]) && ts[mid] == OpToken(op) && ts[next] == RIGHT
    requires Reads(Primary(lim, ts, i, k, d), fitsL, l, mid, nodesL)
    requires Reads(Primary(lim, ts, mid + 1, nodesL + 1, d), fitsR, r, next, nodes)
    ensures Reads(Chain(lim, OrLevel, ts, i, k, d), fitsL && nodesL + 1 <= lim.nodes && fitsR,
                  Binary(op, l, r), next, nodes)
  {
    hide Primary, UnaryExpr, Chain, NotExpr, Operand;
    if ComparisonOf(ts[mid]).Some? {
      ComparandReads(lim, ts, i, k, d, fitsL, l, mid, nodesL);
      ComparandReads(lim, ts, mid + 1, nodesL + 1, d, fitsR, r, next, nodes);
      ComparisonReads(lim, ts, i, k, d, op, fitsL, l, mid, nodesL, fitsR, r, next, nodes);
      UpFromNot(lim, ts, i, k, d);
    } else {
      var level := if op.Times? || op.Over? || op.Percent? then MultiplicativeLevel
                   else if op.Plus? || op.Minus? then AdditiveLevel
                   else if op.Both? then AndLevel else OrLevel;
      OperandReads(lim, level, ts, i, k, d, fitsL, l, mid, nodesL);
      OperandReads(lim, level, ts, mid + 1, nodesL + 1, d, fitsR, r, next, nodes);
      LevelReads(lim, level, ts, i, k, d, op, fitsL, l, mid, nodesL, fitsR, r, next, nodes);
      UpFromMultiplicative(lim, ts, i, k, d);
      UpFromAdditive(lim, ts, i, k, d);
      UpFromNot(lim, ts, i, k, d);
      UpFromAnd(lim, ts, i, k, d);
    }
  }

  /** Where the five parts of a bracketed binary rendering stand. */
  lemma BracketLayout(ts: seq<Token>, i: nat, ls: seq<Token>, op: Token, rs: seq<Token>)
    requires At(ts, i, [LEFT] + ls + [op] + rs + [RIGHT])
    ensures i + 2 + |ls| + |rs| < |ts|
    ensures ts[i] == LEFT && At(ts, i + 1, ls) && ts[i + 1 + |ls|] == op
    ensures At(ts, i + 2 + |ls|, rs) && ts[i + 2 + |ls| + |rs|] == RIGHT
  {
    AtSplit(ts, i, [LEFT] + ls + [op] + rs, [RIGHT]);
    AtHead(ts, i + 2 + |ls| + |rs|, RIGHT, []);
    AtSplit(ts, i, [LEFT] + ls + [op], rs);
    AtSplit(ts, i, [LEFT] + ls, [op]);
    AtHead(ts, i + 1 + |ls|, op, []);
    AtHead(ts, i, LEFT, ls);
  }

  lemma BinaryParts(lim: Limits, ts: seq<Token>, i: nat, n: Node)
    requires n.Binary? && Readable(lim, ts, i, n)
    ensures Closed(ts) && WellFormed(n) && WellFormed(n.left) && WellFormed(n.right)
    ensures Readable(lim, ts, i + 1, n.left)
    ensures var mid := i + 1 + |TokensOf(n.left)|;
      && ts[i] == LEFT && mid + 1 < |ts| && ts[mid] == OpToken(n.op)
      && Readable(lim, ts, mid + 1, n.right) && ts[mid + 1 + |TokensOf(n.right)|] == RIGHT
    ensures |TokensOf(n)| == |TokensOf(n.left)| + |TokensOf(n.right)| + 3
  {
    hide TokensOf, WellFormed, Plain, At, Closed;
    BinaryUnfold(n);
    BracketLayout(ts, i, TokensOf(n.left), OpToken(n.op), TokensOf(n.right));
  }

  lemma BinaryUnfold(n: Node)
    requires n.Binary? && WellFormed(n)
    ensures WellFormed(n.left) && WellFormed(n.right) && (Plain(n) <==> Plain(n.left) && Plain(n.right))
    ensures TokensOf(n) == [LEFT] + TokensOf(n.left) + [OpToken(n.op)] + TokensOf(n.right) + [RIGHT]
  {
    hide OpToken;
  }

  lemma FitsBinary(lim: Limits, n: Node, k: nat, d: nat)
    requires n.Binary?
    ensures Cost(n) == 2 + Cost(n.left) + Cost(n.right)
    ensures Fits(lim, n, k, d) <==>
      && d + 1 <= lim.depth && k + 1 <= lim.nodes
      && Fits(lim, n.left, k + 1, d + 1) && k + 2 + Cost(n.left) <= lim.nodes
      && Fits(lim, n.right, k + 2 + Cost(n.left), d + 1)
  {
  }

  lemma {:induction false} BinaryReads(lim: Limits, ts: seq<Token>, i: nat, k: nat, d: nat, n: Node)
    requires n.Binary? && Readable(lim, ts, i, n)
    ensures Reads(Primary(lim, ts, i, k, d), Fits(lim, n, k, d), n, i + |TokensOf(n)|, k + Cost(n))
    decreases n, 0
  {
    hide *;
    BinaryParts(lim, ts, i, n);
    FitsBinary(lim, n, k, d);
    var l, r := n.left, n.right;
    var mid := i + 1 + |TokensOf(l)|;
    var next := mid + 1 + |TokensOf(r)|;
    var nodesL := k + 1 + Cost(l);
    FirstTokenStartsPrimary(lim, ts, i + 1, l);
    FirstTokenStartsPrimary(lim, ts, mid + 1, r);
    PrimaryReads(lim, ts, i + 1, k + 1, d + 1, l);
    PrimaryReads(lim, ts, mid + 1, nodesL + 1, d + 1, r);
    var fitsL, fitsR := Fits(lim, l, k + 1, d + 1), Fits(lim, r, nodesL + 1, d + 1);
    BodyReads(lim, ts, i + 1, k + 1, d + 1, n.op, fitsL, l, mid, nodesL, fitsR, r, next, nodesL + 1 + Cost(r));
    Parenthesised(lim, ts, i, k, d, fitsL && nodesL + 1 <= lim.nodes && fitsR, n, next, nodesL + 1 + Cost(r));
  }

  // --- calls ----------------------------------------------------------------------

  predicate ArgsPlain(args: seq<Node>) {
    forall a :: a in args ==> WellFormed(a) && Plain(a)
  }

  predicate AllArgsFit(lim: Limits, args: seq<Node>, k: nat, d: nat) {
    args == [] ||
    (k + ArgsCost(args) <= lim.nodes && d + ArgsHeight(args) <= lim.depth && EachFits(args, lim.args))
  }

  predicate EachFits(args: seq<Node>, most: nat) {
    forall a :: a in args ==> ArgsFit(a, most)
  }

  predicate ReadsArgs(r: Result<ParsedArgs, ParseError>, fits: bool, args: seq<Node>, next: nat, nodes: nat) {
    if fits then r == Ok(ParsedArgs(args, next, nodes)) else r.Err?
  }

  /** The arguments after the first: each behind its comma. */
  function LaterTokens(args: seq<Node>): seq<Token>
    requires ArgsPlain(args)
  {
    if |args| == 0 then [] else [NEXT] + TokensOf(args[0]) + LaterTokens(args[1..])
  }

  lemma {:induction false} ArgTokensAreFirstThenLater(args: seq<Node>)
    requires ArgsPlain(args) && |args| > 0
    ensures ArgTokens(args) == TokensOf(args[0]) + LaterTokens(args[1..])
  {
    if |args| > 1 { ArgTokensAreFirstThenLater(args[1..]); }
  }

  /** One more argument and its comma. */
  lemma OneMore(lim: Limits, ts: seq<Token>, done: seq<Node>, i: nat, k: nat, d: nat,
                fits: bool, a: Node, next: nat, nodes: nat)
    requires Closed(ts) && i + 1 < |ts| && next < |ts| && ts[i] == NEXT
    requires Reads(Chain(lim, OrLevel, ts, i + 1, k, d), fits, a, next, nodes)
    ensures if fits && |done| + 1 <= lim.args
      then MoreArguments(lim, ts, done, i, k, d) == MoreArguments(lim, ts, done + [a], next, nodes, d)
      else MoreArguments(lim, ts, done, i, k, d).Err?
  {
    hide Chain;
  }

  lemma MoreEnds(lim: Limits, ts: seq<Token>, done: seq<Node>, i: nat, k: nat, d: nat)
    requires Closed(ts) && i < |ts| && ts[i] == RIGHT
    ensures MoreArguments(lim, ts, done, i, k, d) == Ok(ParsedArgs(done, i, k))
    ensures ArgsCost([]) == 0 && AllArgsFit(lim, [], k, d)
  {
  }

  lemma FitsArgs(lim: Limits, args: seq<Node>, k: nat, d: nat)
    requires |args| > 0
    ensures ArgsCost(args) == Cost(args[0]) + ArgsCost(args[1..])
    ensures AllArgsFit(lim, args, k, d) <==>
      Fits(lim, args[0], k, d) && AllArgsFit(lim, args[1..], k + Cost(args[0]), d)
  {
    ArgsUnfold(args);
    EachFitsSplit(args, lim.args);
    hide Cost, Height, ArgsCost, ArgsHeight, ArgsFit, EachFits;
  }

  lemma ArgsUnfold(args: seq<Node>)
    requires |args| > 0
    ensures ArgsCost(args) == Cost(args[0]) + ArgsCost(args[1..])
    ensures ArgsHeight(args) == MaxNat(Height(args[0]), ArgsHeight(args[1..]))
    ensures args[1..] == [] ==> ArgsCost(args[1..]) == 0 && ArgsHeight(args[1..]) == 0
  {
    hide Cost, Height;
  }

  lemma EachFitsSplit(args: seq<Node>, most: nat)
    requires |args| > 0
    ensures EachFits(args, most) <==> ArgsFit(args[0], most) && EachFits(args[1..], most)
    ensures EachFits([], most)
  {
    hide ArgsFit;
    assert args == [args[0]] + args[1..];
  }

  /** Arguments still to be read: each behind its comma, then the closing parenthesis. */
  predicate LaterReadable(lim: Limits, ts: seq<Token>, args: seq<Node>, i: nat) {
    Closed(ts) && lim.args >= 1 && ArgsPlain(args) && At(ts, i, LaterTokens(args) + [RIGHT])
  }

  lemma ArgsPlainSplit(args: seq<Node>)
    requires ArgsPlain(args) && args != []
    ensures WellFormed(args[0]) && Plain(args[0]) && ArgsPlain(args[1..])
  {
  }

  lemma LaterUnfold(args: seq<Node>)
    requires ArgsPlain(args) && args != []
    ensures ArgsPlain(args[1..]) && WellFormed(args[0])
    ensures LaterTokens(args) == [NEXT] + TokensOf(args[0]) + LaterTokens(args[1..])
  {
  }

  lemma LaterPartsNone(lim: Limits, ts: seq<Token>, args: seq<Node>, i: nat)
    requires LaterReadable(lim, ts, args, i) && args == []
    ensures Closed(ts) && ArgsPlain(args) && LaterTokens(args) == [] && i < |ts| && ts[i] == RIGHT
  {
    hide Closed, ArgsPlain;
    AtHead(ts, i, RIGHT, []);
  }

  lemma LaterParts(lim: Limits, ts: seq<Token>, args: seq<Node>, i: nat)
    requires LaterReadable(lim, ts, args, i) && args != []
    ensures Closed(ts) && ArgsPlain(args) && WellFormed(args[0]) && ArgsPlain(args[1..])
    ensures i + 1 + |TokensOf(args[0])| < |ts| && ts[i] == NEXT && Readable(lim, ts, i + 1, args[0])
    ensures LaterReadable(lim, ts, args[1..], i + 1 + |TokensOf(args[0])|)
    ensures Looseness(ts[i + 1 + |TokensOf(args[0])|]) == 5
    ensures |LaterTokens(args)| == 1 + |TokensOf(args[0])| + |LaterTokens(args[1..])|
  {
    hide TokensOf, WellFormed, Plain, At, Closed, ArgsPlain, LaterTokens;
    ArgsPlainSplit(args);
    LaterUnfold(args);
    assert At(ts, i, LaterTokens(args) + [RIGHT]);
    LaterLayout(ts, i, TokensOf(args[0]), LaterTokens(args[1..]));
    AtBound(ts, i + 1, TokensOf(args[0]));
    LaterStarts(ts, i + 1 + |TokensOf(args[0])|, args[1..]);
  }

  lemma {:induction false} LaterRead(lim: Limits, ts: seq<Token>, done: seq<Node>, args: seq<Node>,
                                     i: nat, k: nat, d: nat)
    requires LaterReadable(lim, ts, args, i) && 1 <= |done| <= lim.args
    ensures ReadsArgs(MoreArguments(lim, ts, done, i, k, d),
                      AllArgsFit(lim, args, k, d) && |done| + |args| <= lim.args,
                      done + args, i + |LaterTokens(args)|, k + ArgsCost(args))
    decreases args, 3
  {
    hide Chain, MoreArguments, Fits, AllArgsFit, ArgsCost, LaterReadable, Readable, TokensOf, Cost, Closed, ArgsPlain,
      LaterTokens;
    if args == [] {
      LaterPartsNone(lim, ts, args, i);
      MoreEnds(lim, ts, done, i, k, d);
      assert done + args == done;
    } else {
      LaterParts(lim, ts, args, i);
      var a, rest := args[0], args[1..];
      var next := i + 1 + |TokensOf(a)|;
      ExpressionReads(lim, ts, i + 1, k, d, a);
      OneMore(lim, ts, done, i, k, d, Fits(lim, a, k, d), a, next, k + Cost(a));
      FitsArgs(lim, args, k, d);
      if Fits(lim, a, k, d) && |done| + 1 <= lim.args {
        LaterRead(lim, ts, done + [a], rest, next, k + Cost(a), d);
        assert done + [a] + rest == done + args;
      }
    }
  }

  lemma LaterLayout(ts: seq<Token>, i: nat, xs: seq<Token>, later: seq<Token>)
    requires At(ts, i, [NEXT] + xs + later + [RIGHT])
    ensures i < |ts| && ts[i] == NEXT && At(ts, i + 1, xs) && At(ts, i + 1 + |xs|, later + [RIGHT])
  {
    assert [NEXT] + xs + later + [RIGHT] == [NEXT] + (xs + (later + [RIGHT]));
    AtHead(ts, i, NEXT, xs + (later + [RIGHT]));
    AtSplit(ts, i + 1, xs, later + [RIGHT]);
  }

  lemma LaterStarts(ts: seq<Token>, i: nat, args: seq<Node>)
    requires ArgsPlain(args) && At(ts, i, LaterTokens(args) + [RIGHT])
    ensures i < |ts| && (ts[i] == NEXT || ts[i] == RIGHT)
  {
    if args == [] { AtHead(ts, i, RIGHT, []); }
    else {
      LaterUnfold(args);
      hide *;
      LaterLayout(ts, i, TokensOf(args[0]), LaterTokens(args[1..]));
    }
  }

  lemma CallLayout(ts: seq<Token>, i: nat, name: Token, xs: seq<Token>)
    requires At(ts, i, [name, LEFT] + xs + [RIGHT])
    ensures ts[i] == name && ts[i + 1] == LEFT && At(ts, i + 2, xs + [RIGHT]) && ts[i + 2 + |xs|] == RIGHT
  {
    assert [name, LEFT] + xs + [RIGHT] == [name] + ([LEFT] + (xs + [RIGHT]));
    AtHead(ts, i, name, [LEFT] + (xs + [RIGHT]));
    AtHead(ts, i + 1, LEFT, xs + [RIGHT]);
    AtSplit(ts, i + 2, xs, [RIGHT]);
    AtHead(ts, i + 2 + |xs|, RIGHT, []);
  }

  lemma ArgumentParts(lim: Limits, ts: seq<Token>, args: seq<Node>, i: nat)
    requires Closed(ts) && lim.args >= 1 && ArgsPlain(args) && At(ts, i, ArgTokens(args) + [RIGHT]) && args != []
    ensures WellFormed(args[0]) && Readable(lim, ts, i, args[0]) && ArgsPlain(args[1..])
    ensures i + |TokensOf(args[0])| < |ts|
    ensures LaterReadable(lim, ts, args[1..], i + |TokensOf(args[0])|)
    ensures Looseness(ts[i + |TokensOf(args[0])|]) == 5 && ts[i].kind != RPAREN
    ensures |ArgTokens(args)| == |TokensOf(args[0])| + |LaterTokens(args[1..])|
  {
    hide TokensOf, WellFormed, Plain, At, ArgTokens, Closed, LaterTokens;
    var a, rest := args[0], args[1..];
    ArgTokensAreFirstThenLater(args);
    Regroup(TokensOf(a), LaterTokens(rest), [RIGHT]);
    AtSplit(ts, i, TokensOf(a), LaterTokens(rest) + [RIGHT]);
    AtBound(ts, i, TokensOf(a));
    LaterStarts(ts, i + |TokensOf(a)|, rest);
    FirstTokenStartsPrimary(lim, ts, i, a);
  }

  lemma ArgumentsUnfold(lim: Limits, ts: seq<Token>, i: nat, k: nat, d: nat, fits: bool, a: Node, next: nat, nodes: nat)
    requires Closed(ts) && i < |ts| && ts[i].kind != RPAREN && next < |ts|
    requires Reads(Chain(lim, OrLevel, ts, i, k, d), fits, a, next, nodes)
    ensures if fits then Arguments(lim, ts, i, k, d) == MoreArguments(lim, ts, [a], next, nodes, d)
                    else Arguments(lim, ts, i, k, d).Err?
  {
    hide Chain, MoreArguments;
  }

  lemma NoArguments(lim: Limits, ts: seq<Token>, i: nat, k: nat, d: nat)
    requires Closed(ts) && At(ts, i, ArgTokens([]) + [RIGHT])
    ensures Arguments(lim, ts, i, k, d) == Ok(ParsedArgs([], i, k))
    ensures AllArgsFit(lim, [], k, d) && ArgTokens([]) == [] && ArgsCost([]) == 0
  {
    hide Chain, MoreArguments;
    AtHead(ts, i, RIGHT, []);
  }

  lemma {:induction false} ArgumentsRead(lim: Limits, ts: seq<Token>, args: seq<Node>, i: nat, k: nat, d: nat)
    requires Closed(ts) && lim.args >= 1 && ArgsPlain(args) && At(ts, i, ArgTokens(args) + [RIGHT])
    ensures ReadsArgs(Arguments(lim, ts, i, k, d), AllArgsFit(lim, args, k, d) && |args| <= lim.args,
                      args, i + |ArgTokens(args)|, k + ArgsCost(args))
    decreases args, 4
  {
    hide Chain, Arguments, MoreArguments, Fits, AllArgsFit, ArgsCost, LaterReadable, Readable, TokensOf,
      Cost, At, ArgTokens, Closed, ArgsPlain, LaterTokens;
    if args == [] {
      NoArguments(lim, ts, i, k, d);
    } else {
      ArgumentParts(lim, ts, args, i);
      var a, rest := args[0], args[1..];
      var next := i + |TokensOf(a)|;
      ExpressionReads(lim, ts, i, k, d, a);
      ArgumentsUnfold(lim, ts, i, k, d, Fits(lim, a, k, d), a, next, k + Cost(a));
      FitsArgs(lim, args, k, d);
      if Fits(lim, a, k, d) {
        LaterRead(lim, ts, [a], rest, next, k + Cost(a), d);
        assert [a] + rest == args;
      }
    }
  }

  lemma CalledReads(lim: Limits, ts: seq<Token>, i: nat, k: nat, d: nat, fits: bool, n: Node, next: nat, nodes: nat)
    requires Closed(ts) && i + 2 < |ts| && next < |ts| && n.Call?
    requires ts[i] == Token(IDENT, n.name) && ts[i + 1] == LEFT && ts[next] == RIGHT
    requires ReadsArgs(Arguments(lim, ts, i + 2, k + 1, d + 1), fits, n.args, next, nodes)
    ensures Reads(Primary(lim, ts, i, k, d), d + 1 <= lim.depth && k + 1 <= lim.nodes && fits, n, next + 1, nodes)
  {
    hide Arguments;
  }

  lemma FitsCall(lim: Limits, n: Node, k: nat, d: nat)
    requires n.Call?
    ensures Cost(n) == 1 + ArgsCost(n.args)
    ensures Fits(lim, n, k, d) <==>
      d + 1 <= lim.depth && k + 1 <= lim.nodes && |n.args| <= lim.args && AllArgsFit(lim, n.args, k + 1, d + 1)
  {
    if n.args == [] { assert ArgsCost(n.args) == 0 && ArgsHeight(n.args) == 0; }
  }

  lemma {:induction false} CallReads(lim: Limits, ts: seq<Token>, i: nat, k: nat, d: nat, n: Node)
    requires n.Call? && Readable(lim, ts, i, n)
    ensures Reads(Primary(lim, ts, i, k, d), Fits(lim, n, k, d), n, i + |TokensOf(n)|, k + Cost(n))
    decreases n.args, 5
  {
    hide Chain, Primary, Arguments, Fits, AllArgsFit, Height, ArgsHeight, Cost, ArgsCost;
    CallLayout(ts, i, Token(IDENT, n.name), ArgTokens(n.args));
    ArgumentsRead(lim, ts, n.args, i + 2, k + 1, d + 1);
    FitsCall(lim, n, k, d);
    CalledReads(lim, ts, i, k, d, AllArgsFit(lim, n.args, k + 1, d + 1) && |n.args| <= lim.args,
                n, i + 2 + |ArgTokens(n.args)|, k + 1 + ArgsCost(n.args));
  }
}
