/** How operators bind: a tree printed with no more parentheses than its operators need is read back as itself
    (packages/engine/quanta_engine/dsl/parser.py).
  */
module Precedence {
  import opened Wrappers
  import opened Collections
  import opened Syntax
  import opened Lexer
  import opened Grammar
  import opened ParsesBack
  import RoundTrip

  // --- the table --------------------------------------------------------------

  /** How strongly an operator binds. `not` stands between `and` and the comparisons, at 3, and a minus sign
      above all of these, at 7.
    */
  function Strength(op: BinaryOp): nat {
    match op
    case Either => 1
    case Both => 2
    case Less => 4 case LessEqual => 4 case Greater => 4 case GreaterEqual => 4 case Same => 4 case Different => 4
    case Plus => 5 case Minus => 5
    case Times => 6 case Over => 6 case Percent => 6
  }

  /** How strongly a tree holds together at its root. */
  function Hold(n: Node): (r: nat)
    ensures 1 <= r <= 8
  {
    match n
    case Binary(op, _, _) => Strength(op)
    case Unary(op, _) => if op.Not? then 3 else 7
    case _ => 8
  }

  /** What the left operand must hold to stand without parentheses: as much as the operator, as chains are read
      from the left, and more beside a comparison, of which no two are read in a row.
    */
  function LeftNeed(op: BinaryOp): nat {
    if Strength(op) == 4 then 5 else Strength(op)
  }

  function RightNeed(op: BinaryOp): nat {
    Strength(op) + 1
  }

  function UnaryNeed(op: UnaryOp): nat {
    if op.Not? then 3 else 7
  }

  function UnaryText(op: UnaryOp): Token {
    if op.Not? then Token(KEYWORD, "not") else Token(OPERATOR, "-")
  }

  // --- printing -----------------------------------------------------------------

  /** A tree where something of this strength is needed, in parentheses if it does not hold as much. */
  function Sparse(n: Node, need: nat): (ts: seq<Token>)
    requires WellFormed(n) && Plain(n)
    ensures |ts| > 0
    decreases n, 1
  {
    if Hold(n) < need then [LEFT] + Bare(n) + [RIGHT] else Bare(n)
  }

  function Bare(n: Node): (ts: seq<Token>)
    requires WellFormed(n) && Plain(n)
    ensures |ts| > 0
    decreases n, 0
  {
    match n
    case Number(d) => [Token(NUMBER, ShowDecimal(d))]
    case Boolean(b) => [Token(KEYWORD, if b then "true" else "false")]
    case Identifier(name) => [Token(IDENT, name)]
    case Call(name, args) => [Token(IDENT, name), LEFT] + SparseArgs(args) + [RIGHT]
    case Unary(op, x) => [UnaryText(op)] + Sparse(x, UnaryNeed(op))
    case Binary(op, l, r) => Sparse(l, LeftNeed(op)) + [OpToken(op)] + Sparse(r, RightNeed(op))
  }

  function SparseArgs(args: seq<Node>): seq<Token>
    requires ArgsPlain(args)
    decreases args, 2
  {
    if |args| == 0 then [] else Sparse(args[0], 1) + LaterArgs(args[1..])
  }

  /** The arguments after the first, each behind its comma. */
  function LaterArgs(args: seq<Node>): seq<Token>
    requires ArgsPlain(args)
    decreases args, 2
  {
    if |args| == 0 then [] else [NEXT] + Sparse(args[0], 1) + LaterArgs(args[1..])
  }

  // --- what it costs --------------------------------------------------------------

  function SparseCost(n: Node, need: nat): nat
    decreases n, 1
  {
    (if Hold(n) < need then 1 else 0) + BareCost(n)
  }

  function BareCost(n: Node): nat
    decreases n, 0
  {
    match n
    case Call(_, args) => 1 + SparseArgsCost(args)
    case Unary(op, x) => 1 + SparseCost(x, UnaryNeed(op))
    case Binary(op, l, r) => 1 + SparseCost(l, LeftNeed(op)) + SparseCost(r, RightNeed(op))
    case _ => 1
  }

  function SparseArgsCost(args: seq<Node>): nat
    decreases args, 2
  {
    if |args| == 0 then 0 else SparseCost(args[0], 1) + SparseArgsCost(args[1..])
  }

  function SparseHeight(n: Node, need: nat): nat
    decreases n, 1
  {
    (if Hold(n) < need then 1 else 0) + BareHeight(n)
  }

  function BareHeight(n: Node): nat
    decreases n, 0
  {
    match n
    case Call(_, args) => 1 + SparseArgsHeight(args)
    case Unary(op, x) => SparseHeight(x, UnaryNeed(op))
    case Binary(op, l, r) => MaxNat(SparseHeight(l, LeftNeed(op)), SparseHeight(r, RightNeed(op)))
    case _ => 1
  }

  function SparseArgsHeight(args: seq<Node>): nat
    decreases args, 2
  {
    if |args| == 0 then 0 else MaxNat(SparseHeight(args[0], 1), SparseArgsHeight(args[1..]))
  }

  predicate Room(lim: Limits, k: nat, d: nat, cost: nat, height: nat) {
    k + cost <= lim.nodes && d + height <= lim.depth
  }

  // --- reading at a strength ----------------------------------------------------------

  /** What the parser reads where this strength is needed. */
  function Read(lim: Limits, need: nat, ts: seq<Token>, i: nat, k: nat, d: nat): Result<Parsed, ParseError>
    requires Closed(ts) && i < |ts|
  {
    if need <= 1 then Chain(lim, OrLevel, ts, i, k, d)
    else if need == 2 then Chain(lim, AndLevel, ts, i, k, d)
    else if need == 3 then NotExpr(lim, ts, i, k, d)
    else if need == 4 then Comparison(lim, ts, i, k, d)
    else if need == 5 then Chain(lim, AdditiveLevel, ts, i, k, d)
    else if need == 6 then Chain(lim, MultiplicativeLevel, ts, i, k, d)
    else if need == 7 then UnaryExpr(lim, ts, i, k, d)
    else Primary(lim, ts, i, k, d)
  }

  /** The token ends what is read at a strength: no operator as strong, and no call. */
  ghost predicate Ends(t: Token, need: nat) {
    t.kind != LPAREN && forall op: BinaryOp :: t == OpToken(op) ==> Strength(op) < need
  }

  function LevelStrength(level: Level): nat {
    match level
    case OrLevel => 1
    case AndLevel => 2
    case AdditiveLevel => 5
    case MultiplicativeLevel => 6
  }

  /** The grammar's levels take the operators that the table gives them. */
  lemma LevelTakes(level: Level, op: BinaryOp)
    ensures OperatorOf(level, OpToken(op)) == if Strength(op) == LevelStrength(level) then Some(op) else None
    ensures ComparisonOf(OpToken(op)) == if Strength(op) == 4 then Some(op) else None
  {
  }

  lemma LevelTakesOps(level: Level, t: Token)
    ensures OperatorOf(level, t).Some? ==> t == OpToken(OperatorOf(level, t).value)
  {
  }

  lemma ComparisonTakesOps(t: Token)
    ensures ComparisonOf(t).Some? ==> t == OpToken(ComparisonOf(t).value)
  {
  }

  lemma EndsLevel(t: Token, need: nat, level: Level)
    requires Ends(t, need)
    ensures need <= LevelStrength(level) ==> OperatorOf(level, t).None?
    ensures need <= 4 ==> ComparisonOf(t).None?
  {
    LevelTakesOps(level, t);
    ComparisonTakesOps(t);
    var op, comparison := OperatorOf(level, t), ComparisonOf(t);
    if op.Some? { LevelTakes(level, op.value); }
    if comparison.Some? { LevelTakes(level, comparison.value); }
    hide OperatorOf, ComparisonOf, OpToken, Strength;
  }

  lemma ClosersEnd(need: nat)
    ensures Ends(RIGHT, need) && Ends(NEXT, need) && Ends(END, need)
  {
  }

  lemma OpEnds(op: BinaryOp, need: nat)
    requires need > Strength(op)
    ensures Ends(OpToken(op), need)
  {
    forall p: BinaryOp | OpToken(op) == OpToken(p) ensures Strength(p) < need { OpTokensDiffer(op, p); }
    hide Strength;
  }

  lemma OpTokensDiffer(p: BinaryOp, q: BinaryOp)
    requires OpToken(p) == OpToken(q)
    ensures p == q
  {
  }

  // --- from one strength to the one below ---------------------------------------------------

  /** The first token keeps `not` and minus signs for the levels that read them. */
  predicate Opens(t: Token, need: nat) {
    && (need >= 4 ==> t != Token(KEYWORD, "not"))
    && (need >= 8 ==> t != Token(OPERATOR, "-"))
  }

  lemma StepDown(lim: Limits, need: nat, ts: seq<Token>, i: nat, k: nat, d: nat, p: Parsed)
    requires Closed(ts) && i < |ts| && 1 <= need <= 7 && Opens(ts[i], need + 1)
    requires Read(lim, need + 1, ts, i, k, d) == Ok(p) && p.next < |ts| && Ends(ts[p.next], need)
    ensures Read(lim, need, ts, i, k, d) == Ok(p)
  {
    if need == 3 || need == 7 { hide Comparison, Primary; }
    else if need == 4 { EndsLevel(ts[p.next], 4, AdditiveLevel); hide Chain; }
    else {
      EndsLevel(ts[p.next], need, LevelOf(need));
      hide Chain, NotExpr, UnaryExpr, OperatorOf, Ends;
      ChainStops(lim, LevelOf(need), ts, i, k, d, p);
    }
  }

  function LevelOf(need: nat): Level {
    if need <= 1 then OrLevel else if need == 2 then AndLevel else if need == 5 then AdditiveLevel else MultiplicativeLevel
  }

  lemma ChainStops(lim: Limits, level: Level, ts: seq<Token>, i: nat, k: nat, d: nat, p: Parsed)
    requires Closed(ts) && i < |ts| && Operand(lim, level, ts, i, k, d) == Ok(p) && p.next < |ts|
    requires OperatorOf(level, ts[p.next]).None?
    ensures Chain(lim, level, ts, i, k, d) == Ok(p)
  {
    hide Operand, OperatorOf;
  }

  lemma {:induction false} Down(lim: Limits, from: nat, need: nat, ts: seq<Token>, i: nat, k: nat, d: nat, p: Parsed)
    requires Closed(ts) && i < |ts| && 1 <= need <= from <= 8 && Opens(ts[i], from)
    requires Read(lim, from, ts, i, k, d) == Ok(p) && p.next < |ts| && Ends(ts[p.next], need)
    ensures Read(lim, need, ts, i, k, d) == Ok(p)
    decreases from
  {
    hide Read, Opens;
    if need < from {
      EndsMore(ts[p.next], need, from - 1);
      StepDown(lim, from - 1, ts, i, k, d, p);
      OpensLess(ts[i], from);
      Down(lim, from - 1, need, ts, i, k, d, p);
    }
  }

  lemma EndsMore(t: Token, need: nat, more: nat)
    requires Ends(t, need) && need <= more
    ensures Ends(t, more)
  {
  }

  lemma OpensLess(t: Token, need: nat)
    requires Opens(t, need) && need > 0
    ensures Opens(t, need - 1)
  {
  }

  // --- first tokens -----------------------------------------------------------------------------

  lemma {:induction false} SparseOpens(n: Node, need: nat)
    requires WellFormed(n) && Plain(n)
    ensures Opens(Sparse(n, need)[0], need)
    decreases n, 1
  {
    if Hold(n) >= need { BareOpens(n); }
  }

  lemma {:induction false} BareOpens(n: Node)
    requires WellFormed(n) && Plain(n)
    ensures Opens(Bare(n)[0], Hold(n))
    decreases n, 0
  {
    match n {
      case Binary(op, l, _) => SparseOpens(l, LeftNeed(op)); assert Bare(n)[0] == Sparse(l, LeftNeed(op))[0];
      case _ =>
    }
  }

  // --- reading it back -----------------------------------------------------------------------------

  /** The tree can be read from token i on: it stands there, and the budgets left hold it. */
  predicate Fitting(lim: Limits, ts: seq<Token>, i: nat, k: nat, d: nat, n: Node, need: nat) {
    && Closed(ts) && lim.args >= 1 && WellFormed(n) && Plain(n) && ArgsFit(n, lim.args)
    && At(ts, i, Sparse(n, need)) && Room(lim, k, d, SparseCost(n, need), SparseHeight(n, need))
  }

  function Done(n: Node, need: nat, i: nat, k: nat): Result<Parsed, ParseError>
    requires WellFormed(n) && Plain(n)
  {
    Ok(Parsed(n, i + |Sparse(n, need)|, k + SparseCost(n, need)))
  }

  lemma Inside(lim: Limits, ts: seq<Token>, i: nat, k: nat, d: nat, n: Node, need: nat)
    requires Fitting(lim, ts, i, k, d, n, need) && Hold(n) < need
    ensures i + |Sparse(n, need)| < |ts| && |Sparse(n, need)| == |Bare(n)| + 2 && SparseCost(n, need) == 1 + BareCost(n)
    ensures d + 1 <= lim.depth && k + 1 <= lim.nodes
    ensures ts[i] == LEFT && ts[i + 1 + |Bare(n)|] == RIGHT && Fitting(lim, ts, i + 1, k + 1, d + 1, n, Hold(n))
  {
    hide Bare, BareCost, BareHeight, Sparse, SparseCost, SparseHeight, WellFormed, Plain, ArgsFit, Closed;
    Bracketed(n, need);
    Outright(n, Hold(n));
    AtSplit(ts, i, [LEFT] + Bare(n), [RIGHT]);
    AtHead(ts, i, LEFT, Bare(n));
    AtHead(ts, i + 1 + |Bare(n)|, RIGHT, []);
  }

  lemma Bracketed(n: Node, need: nat)
    requires WellFormed(n) && Plain(n) && Hold(n) < need
    ensures Sparse(n, need) == [LEFT] + Bare(n) + [RIGHT] && SparseCost(n, need) == 1 + BareCost(n)
    ensures SparseHeight(n, need) == 1 + BareHeight(n)
  {
    hide Bare, BareCost, BareHeight;
  }

  lemma Outright(n: Node, need: nat)
    requires WellFormed(n) && Plain(n) && Hold(n) >= need
    ensures Sparse(n, need) == Sparse(n, Hold(n)) == Bare(n) && SparseCost(n, need) == SparseCost(n, Hold(n)) == BareCost(n)
    ensures SparseHeight(n, need) == SparseHeight(n, Hold(n)) == BareHeight(n)
  {
    hide Bare, BareCost, BareHeight;
  }

  lemma FirstOpens(lim: Limits, ts: seq<Token>, i: nat, k: nat, d: nat, n: Node, need: nat)
    requires Fitting(lim, ts, i, k, d, n, need)
    ensures i + |Sparse(n, need)| < |ts| && Opens(ts[i], need)
  {
    SparseOpens(n, need);
    assert ts[i..i + |Sparse(n, need)|][0] == Sparse(n, need)[0];
    hide Sparse;
  }

  lemma {:induction false} SparseReads(lim: Limits, ts: seq<Token>, i: nat, k: nat, d: nat, n: Node, need: nat)
    requires Fitting(lim, ts, i, k, d, n, need) && 1 <= need <= 8 && Ends(ts[i + |Sparse(n, need)|], need)
    ensures Read(lim, need, ts, i, k, d) == Done(n, need, i, k)
    decreases n, 3
  {
    hide Read, Fitting, Ends, Opens, Sparse, SparseCost, SparseHeight, Closed, WellFormed, Plain;
    FirstOpens(lim, ts, i, k, d, n, need);
    Parts(lim, ts, i, k, d, n, need);
    if Hold(n) >= need {
      Outright(n, need);
      SameFit(lim, ts, i, k, d, n, need);
      EndsMore(ts[i + |Sparse(n, need)|], need, Hold(n));
      BareReads(lim, ts, i, k, d, n);
      FirstOpens(lim, ts, i, k, d, n, Hold(n));
      Down(lim, Hold(n), need, ts, i, k, d, Done(n, need, i, k).value);
    } else {
      Inside(lim, ts, i, k, d, n, need);
      Outright(n, Hold(n));
      Outright(n, 1);
      ClosersEnd(Hold(n));
      ClosersEnd(1);
      BareReads(lim, ts, i + 1, k + 1, d + 1, n);
      FirstOpens(lim, ts, i + 1, k + 1, d + 1, n, Hold(n));
      Down(lim, Hold(n), 1, ts, i + 1, k + 1, d + 1, Done(n, Hold(n), i + 1, k + 1).value);
      InParentheses(lim, ts, i, k, d, n, Done(n, Hold(n), i + 1, k + 1).value);
      LeftOpens();
      Down(lim, 8, need, ts, i, k, d, Done(n, need, i, k).value);
    }
  }

  lemma Parts(lim: Limits, ts: seq<Token>, i: nat, k: nat, d: nat, n: Node, need: nat)
    requires Fitting(lim, ts, i, k, d, n, need)
    ensures Closed(ts) && WellFormed(n) && Plain(n)
  {
  }

  lemma LeftOpens()
    ensures Opens(LEFT, 8)
  {
  }

  lemma SameFit(lim: Limits, ts: seq<Token>, i: nat, k: nat, d: nat, n: Node, need: nat)
    requires Fitting(lim, ts, i, k, d, n, need) && Hold(n) >= need
    ensures Fitting(lim, ts, i, k, d, n, Hold(n))
  {
    Outright(n, need);
    hide Sparse, SparseCost, SparseHeight;
  }

  lemma InParentheses(lim: Limits, ts: seq<Token>, i: nat, k: nat, d: nat, n: Node, p: Parsed)
    requires Closed(ts) && i + 1 < |ts| && p.node == n && p.next < |ts| && ts[i] == LEFT && ts[p.next] == RIGHT
    requires d + 1 <= lim.depth && k + 1 <= lim.nodes
    requires Read(lim, 1, ts, i + 1, k + 1, d + 1) == Ok(p)
    ensures Read(lim, 8, ts, i, k, d) == Ok(Parsed(n, p.next + 1, p.nodes))
  {
    hide Chain, Primary;
    Parenthesised(lim, ts, i, k, d, true, n, p.next, p.nodes);
  }

  /** At its own strength, without parentheses. */
  lemma {:induction false} BareReads(lim: Limits, ts: seq<Token>, i: nat, k: nat, d: nat, n: Node)
    requires Fitting(lim, ts, i, k, d, n, Hold(n)) && Ends(ts[i + |Sparse(n, Hold(n))|], Hold(n))
    ensures Read(lim, Hold(n), ts, i, k, d) == Done(n, Hold(n), i, k)
    decreases n, 2
  {
    hide *;
    match n {
      case Binary(op, l, r) =>
        if Strength(op) == 4 { ComparisonReadsBack(lim, ts, i, k, d, n); } else { ChainReadsBack(lim, ts, i, k, d, n); }
      case Unary(op, x) => SignedReadsBack(lim, ts, i, k, d, n);
      case Call(name, args) => CalledReadsBack(lim, ts, i, k, d, n);
      case _ => LeafReadsBack(lim, ts, i, k, d, n);
    }
  }

  lemma LeafReadsBack(lim: Limits, ts: seq<Token>, i: nat, k: nat, d: nat, n: Node)
    requires Fitting(lim, ts, i, k, d, n, Hold(n)) && Ends(ts[i + |Sparse(n, Hold(n))|], Hold(n))
    requires n.Number? || n.Boolean? || n.Identifier?
    ensures Read(lim, Hold(n), ts, i, k, d) == Done(n, Hold(n), i, k)
  {
    hide Primary, ShowDecimal, Closed;
    assert Sparse(n, 8) == [Bare(n)[0]] + [] && TokensOf(n)[0] == Bare(n)[0];
    AtHead(ts, i, Bare(n)[0], []);
    LeafPrimary(lim, ts, i, k, d, n);
    Outright(n, 8);
    assert BareCost(n) == 1 && BareHeight(n) == 1;
    assert Fits(lim, n, k, d);
  }

  // --- signs ------------------------------------------------------------------------------------------

  lemma SignedParts(lim: Limits, ts: seq<Token>, i: nat, k: nat, d: nat, n: Node)
    requires n.Unary? && Fitting(lim, ts, i, k, d, n, Hold(n))
    ensures var need := UnaryNeed(n.uop);
      && Hold(n) == need && Closed(ts) && WellFormed(n) && Plain(n) && WellFormed(n.operand) && Plain(n.operand)
      && i + 1 < |ts| && ts[i] == UnaryText(n.uop) && k + 1 <= lim.nodes
      && Fitting(lim, ts, i + 1, k + 1, d, n.operand, need)
      && |Sparse(n, need)| == 1 + |Sparse(n.operand, need)| && SparseCost(n, need) == 1 + SparseCost(n.operand, need)
  {
    hide Closed;
    var need := UnaryNeed(n.uop);
    Outright(n, need);
    AtHead(ts, i, UnaryText(n.uop), Sparse(n.operand, need));
  }

  lemma SignReadsOn(lim: Limits, ts: seq<Token>, i: nat, k: nat, d: nat, op: UnaryOp, p: Parsed)
    requires Closed(ts) && i + 1 < |ts| && ts[i] == UnaryText(op) && k + 1 <= lim.nodes
    requires Read(lim, UnaryNeed(op), ts, i + 1, k + 1, d) == Ok(p)
    ensures Read(lim, UnaryNeed(op), ts, i, k, d) == Ok(Parsed(Unary(op, p.node), p.next, p.nodes))
  {
    hide Comparison, Primary;
  }

  lemma {:induction false} SignedReadsBack(lim: Limits, ts: seq<Token>, i: nat, k: nat, d: nat, n: Node)
    requires n.Unary? && Fitting(lim, ts, i, k, d, n, Hold(n)) && Ends(ts[i + |Sparse(n, Hold(n))|], Hold(n))
    ensures Read(lim, Hold(n), ts, i, k, d) == Done(n, Hold(n), i, k)
    decreases n, 1
  {
    hide Read, Fitting, Ends, Sparse, SparseCost, SparseHeight, Closed, WellFormed, Plain;
    SignedParts(lim, ts, i, k, d, n);
    var need := UnaryNeed(n.uop);
    SparseReads(lim, ts, i + 1, k + 1, d, n.operand, need);
    SignReadsOn(lim, ts, i, k, d, n.uop, Done(n.operand, need, i + 1, k + 1).value);
  }

  // --- operators ----------------------------------------------------------------------------------------

  lemma BinarySparseParts(lim: Limits, ts: seq<Token>, i: nat, k: nat, d: nat, n: Node)
    requires n.Binary? && Fitting(lim, ts, i, k, d, n, Hold(n))
    ensures var l, r, s, t := n.left, n.right, LeftNeed(n.op), RightNeed(n.op);
      && Closed(ts) && WellFormed(n) && Plain(n) && WellFormed(l) && Plain(l) && WellFormed(r) && Plain(r)
      && Fitting(lim, ts, i, k, d, l, s)
      && var mid, nodes := i + |Sparse(l, s)|, k + SparseCost(l, s);
      && mid + 1 < |ts| && ts[mid] == OpToken(n.op) && nodes + 1 <= lim.nodes
      && Fitting(lim, ts, mid + 1, nodes + 1, d, r, t)
      && |Sparse(n, Hold(n))| == |Sparse(l, s)| + 1 + |Sparse(r, t)|
      && SparseCost(n, Hold(n)) == SparseCost(l, s) + 1 + SparseCost(r, t)
  {
    hide Closed, Sparse, SparseCost, SparseHeight, OpToken, Bare, BareCost, BareHeight, WellFormed, Plain;
    Outright(n, Hold(n));
    BareBinary(n);
    var ls, op, rs := Sparse(n.left, LeftNeed(n.op)), OpToken(n.op), Sparse(n.right, RightNeed(n.op));
    AtSplit(ts, i, ls + [op], rs);
    AtSplit(ts, i, ls, [op]);
    AtHead(ts, i + |ls|, op, []);
  }

  lemma BareBinary(n: Node)
    requires n.Binary? && WellFormed(n) && Plain(n)
    ensures WellFormed(n.left) && Plain(n.left) && WellFormed(n.right) && Plain(n.right)
    ensures Bare(n) == Sparse(n.left, LeftNeed(n.op)) + [OpToken(n.op)] + Sparse(n.right, RightNeed(n.op))
    ensures BareCost(n) == 1 + SparseCost(n.left, LeftNeed(n.op)) + SparseCost(n.right, RightNeed(n.op))
    ensures BareHeight(n) == MaxNat(SparseHeight(n.left, LeftNeed(n.op)), SparseHeight(n.right, RightNeed(n.op)))
  {
    hide OpToken;
  }

  lemma ComparisonReadsOn(lim: Limits, ts: seq<Token>, i: nat, k: nat, d: nat, op: BinaryOp, l: Parsed, r: Parsed)
    requires Closed(ts) && i < |ts| && Strength(op) == 4 && l.next + 1 < |ts| && ts[l.next] == OpToken(op)
    requires Read(lim, 5, ts, i, k, d) == Ok(l) && l.nodes + 1 <= lim.nodes
    requires Read(lim, 5, ts, l.next + 1, l.nodes + 1, d) == Ok(r) && r.next < |ts| && Ends(ts[r.next], 4)
    ensures Read(lim, 4, ts, i, k, d) == Ok(Parsed(Binary(op, l.node, r.node), r.next, r.nodes))
  {
    LevelTakes(OrLevel, op);
    EndsLevel(ts[r.next], 4, MultiplicativeLevel);
    hide Chain, OperatorOf, ComparisonOf, OpToken, Ends;
  }

  lemma {:induction false} ComparisonReadsBack(lim: Limits, ts: seq<Token>, i: nat, k: nat, d: nat, n: Node)
    requires n.Binary? && Strength(n.op) == 4
    requires Fitting(lim, ts, i, k, d, n, Hold(n)) && Ends(ts[i + |Sparse(n, Hold(n))|], Hold(n))
    ensures Read(lim, Hold(n), ts, i, k, d) == Done(n, Hold(n), i, k)
    decreases n, 1
  {
    hide Read, Fitting, Ends, Sparse, SparseCost, SparseHeight, Closed, WellFormed, Plain, OpToken;
    BinarySparseParts(lim, ts, i, k, d, n);
    OpEnds(n.op, 5);
    var mid, nodes := i + |Sparse(n.left, 5)|, k + SparseCost(n.left, 5);
    FirstOpens(lim, ts, i, k, d, n, 4);
    EndsMore(ts[i + |Sparse(n, 4)|], 4, 5);
    SparseReads(lim, ts, i, k, d, n.left, 5);
    SparseReads(lim, ts, mid + 1, nodes + 1, d, n.right, 5);
    ComparisonReadsOn(lim, ts, i, k, d, n.op, Done(n.left, 5, i, k).value, Done(n.right, 5, mid + 1, nodes + 1).value);
  }

  // --- chains -----------------------------------------------------------------------------------------------

  lemma OperandIsRead(lim: Limits, level: Level, ts: seq<Token>, i: nat, k: nat, d: nat)
    requires Closed(ts) && i < |ts|
    ensures Operand(lim, level, ts, i, k, d) == Read(lim, LevelStrength(level) + 1, ts, i, k, d)
    ensures Chain(lim, level, ts, i, k, d) == Read(lim, LevelStrength(level), ts, i, k, d)
  {
    hide Chain, NotExpr, UnaryExpr;
  }

  lemma ChainFrom(lim: Limits, level: Level, ts: seq<Token>, i: nat, k: nat, d: nat, p: Parsed)
    requires Closed(ts) && i < |ts| && Operand(lim, level, ts, i, k, d) == Ok(p) && p.next < |ts|
    ensures Chain(lim, level, ts, i, k, d) == ChainTail(lim, level, ts, p.node, p.next, p.nodes, d)
  {
    hide Operand, ChainTail;
  }

  lemma TailOn(lim: Limits, level: Level, ts: seq<Token>, i: nat, k: nat, d: nat, op: BinaryOp, left: Node, r: Parsed)
    requires Closed(ts) && i + 1 < |ts| && ts[i] == OpToken(op) && Strength(op) == LevelStrength(level) && k + 1 <= lim.nodes
    requires Operand(lim, level, ts, i + 1, k + 1, d) == Ok(r) && r.next < |ts|
    ensures ChainTail(lim, level, ts, left, i, k, d) == ChainTail(lim, level, ts, Binary(op, left, r.node), r.next, r.nodes, d)
  {
    LevelTakes(level, op);
    hide Operand, OperatorOf, OpToken;
  }

  lemma TailStops(lim: Limits, level: Level, ts: seq<Token>, left: Node, i: nat, k: nat, d: nat)
    requires Closed(ts) && i < |ts| && Ends(ts[i], LevelStrength(level))
    ensures ChainTail(lim, level, ts, left, i, k, d) == Ok(Parsed(left, i, k))
  {
    EndsLevel(ts[i], LevelStrength(level), level);
    hide Operand, OperatorOf, Ends;
  }

  function LevelFor(op: BinaryOp): Level
    requires Strength(op) != 4
  {
    LevelOf(Strength(op))
  }

  /** A chain read up to a tree goes on behind it, whatever operator of its level follows. */
  lemma {:induction false} ChainReads(lim: Limits, level: Level, ts: seq<Token>, i: nat, k: nat, d: nat, n: Node)
    requires Fitting(lim, ts, i, k, d, n, LevelStrength(level))
    requires Ends(ts[i + |Sparse(n, LevelStrength(level))|], LevelStrength(level) + 1)
    ensures var p := Done(n, LevelStrength(level), i, k).value;
      p.next < |ts| && Chain(lim, level, ts, i, k, d) == ChainTail(lim, level, ts, n, p.next, p.nodes, d)
    decreases n, 4
  {
    hide Read, Fitting, Ends, Sparse, SparseCost, SparseHeight, Closed, WellFormed, Plain, Chain, ChainTail, Operand;
    var s := LevelStrength(level);
    Parts(lim, ts, i, k, d, n, s);
    FirstOpens(lim, ts, i, k, d, n, s);
    if n.Binary? && Strength(n.op) == s {
      ChainOfBinary(lim, level, ts, i, k, d, n);
    } else {
      NeedsAsMuch(lim, ts, i, k, d, n, level);
      SparseReads(lim, ts, i, k, d, n, s + 1);
      OperandIsRead(lim, level, ts, i, k, d);
      ChainFrom(lim, level, ts, i, k, d, Done(n, s, i, k).value);
    }
  }

  lemma NeedsAsMuch(lim: Limits, ts: seq<Token>, i: nat, k: nat, d: nat, n: Node, level: Level)
    requires var s := LevelStrength(level); Fitting(lim, ts, i, k, d, n, s) && !(n.Binary? && Strength(n.op) == s)
    ensures var s := LevelStrength(level);
      Fitting(lim, ts, i, k, d, n, s + 1) && Sparse(n, s) == Sparse(n, s + 1) && SparseCost(n, s) == SparseCost(n, s + 1)
  {
    assert Hold(n) != LevelStrength(level);
    hide Bare, BareCost, BareHeight;
  }

  lemma {:induction false} ChainOfBinary(lim: Limits, level: Level, ts: seq<Token>, i: nat, k: nat, d: nat, n: Node)
    requires n.Binary? && Strength(n.op) == LevelStrength(level)
    requires Fitting(lim, ts, i, k, d, n, Hold(n)) && Ends(ts[i + |Sparse(n, Hold(n))|], Hold(n) + 1)
    ensures var p := Done(n, Hold(n), i, k).value;
      p.next < |ts| && Chain(lim, level, ts, i, k, d) == ChainTail(lim, level, ts, n, p.next, p.nodes, d)
    decreases n, 0
  {
    hide Read, Fitting, Ends, Sparse, SparseCost, SparseHeight, Closed, WellFormed, Plain, OpToken, Chain, ChainTail, Operand, Opens;
    var s := LevelStrength(level);
    BinarySparseParts(lim, ts, i, k, d, n);
    OpEnds(n.op, s + 1);
    FirstOpens(lim, ts, i, k, d, n, s);
    var mid, nodes := i + |Sparse(n.left, s)|, k + SparseCost(n.left, s);
    ChainReads(lim, level, ts, i, k, d, n.left);
    SparseReads(lim, ts, mid + 1, nodes + 1, d, n.right, s + 1);
    OperandIsRead(lim, level, ts, mid + 1, nodes + 1, d);
    TailOn(lim, level, ts, mid, nodes, d, n.op, n.left, Done(n.right, s + 1, mid + 1, nodes + 1).value);
  }

  lemma {:induction false} ChainReadsBack(lim: Limits, ts: seq<Token>, i: nat, k: nat, d: nat, n: Node)
    requires n.Binary? && Strength(n.op) != 4
    requires Fitting(lim, ts, i, k, d, n, Hold(n)) && Ends(ts[i + |Sparse(n, Hold(n))|], Hold(n))
    ensures Read(lim, Hold(n), ts, i, k, d) == Done(n, Hold(n), i, k)
    decreases n, 1
  {
    var level := LevelFor(n.op);
    hide Read, Fitting, Ends, Sparse, SparseCost, SparseHeight, Closed, WellFormed, Plain, OpToken, Chain, ChainTail, Operand, Opens;
    Parts(lim, ts, i, k, d, n, Hold(n));
    FirstOpens(lim, ts, i, k, d, n, Hold(n));
    EndsMore(ts[i + |Sparse(n, Hold(n))|], Hold(n), Hold(n) + 1);
    ChainOfBinary(lim, level, ts, i, k, d, n);
    var p := Done(n, Hold(n), i, k).value;
    TailStops(lim, level, ts, n, p.next, p.nodes, d);
    OperandIsRead(lim, level, ts, i, k, d);
  }

  // --- calls ------------------------------------------------------------------------------------------------

  predicate LaterFitting(lim: Limits, ts: seq<Token>, i: nat, k: nat, d: nat, args: seq<Node>) {
    && Closed(ts) && lim.args >= 1 && ArgsPlain(args) && EachFits(args, lim.args)
    && At(ts, i, LaterArgs(args) + [RIGHT]) && Room(lim, k, d, SparseArgsCost(args), SparseArgsHeight(args))
  }

  lemma NoLater(lim: Limits, ts: seq<Token>, i: nat, k: nat, d: nat, args: seq<Node>)
    requires LaterFitting(lim, ts, i, k, d, args) && args == []
    ensures Closed(ts) && ArgsPlain(args) && LaterArgs(args) == [] && SparseArgsCost(args) == 0 && i < |ts| && ts[i] == RIGHT
  {
    hide Closed;
    AtHead(ts, i, RIGHT, []);
  }

  lemma LaterUnfolds(args: seq<Node>)
    requires ArgsPlain(args) && args != []
    ensures WellFormed(args[0]) && Plain(args[0]) && ArgsPlain(args[1..])
    ensures LaterArgs(args) == [NEXT] + Sparse(args[0], 1) + LaterArgs(args[1..])
    ensures SparseArgs(args) == Sparse(args[0], 1) + LaterArgs(args[1..])
    ensures SparseArgsCost(args) == SparseCost(args[0], 1) + SparseArgsCost(args[1..])
    ensures SparseArgsHeight(args) == MaxNat(SparseHeight(args[0], 1), SparseArgsHeight(args[1..]))
  {
    hide Sparse, SparseCost, SparseHeight;
    ArgsPlainSplit(args);
  }

  lemma LaterEnds(ts: seq<Token>, i: nat, args: seq<Node>)
    requires ArgsPlain(args) && At(ts, i, LaterArgs(args) + [RIGHT])
    ensures i < |ts| && Ends(ts[i], 1) && (ts[i] == NEXT || ts[i] == RIGHT)
  {
    ClosersEnd(1);
    if args == [] {
      AtHead(ts, i, RIGHT, []);
    } else {
      LaterUnfolds(args);
      hide Ends, LaterArgs, Sparse;
      LaterLayout(ts, i, Sparse(args[0], 1), LaterArgs(args[1..]));
    }
  }

  lemma OneLater(lim: Limits, ts: seq<Token>, i: nat, k: nat, d: nat, args: seq<Node>)
    requires LaterFitting(lim, ts, i, k, d, args) && args != []
    ensures Closed(ts) && ArgsPlain(args) && WellFormed(args[0]) && Plain(args[0]) && ArgsPlain(args[1..])
    ensures var next, nodes := i + 1 + |Sparse(args[0], 1)|, k + SparseCost(args[0], 1);
      && next < |ts| && ts[i] == NEXT && Ends(ts[next], 1) && Fitting(lim, ts, i + 1, k, d, args[0], 1)
      && LaterFitting(lim, ts, next, nodes, d, args[1..])
      && |LaterArgs(args)| == 1 + |Sparse(args[0], 1)| + |LaterArgs(args[1..])|
      && SparseArgsCost(args) == SparseCost(args[0], 1) + SparseArgsCost(args[1..])
  {
    hide Closed, Sparse, SparseCost, SparseHeight, LaterArgs, SparseArgsCost, SparseArgsHeight,
      EachFits, ArgsPlain, At, Ends, WellFormed, Plain;
    LaterUnfolds(args);
    EachFitsSplit(args, lim.args);
    LaterLayout(ts, i, Sparse(args[0], 1), LaterArgs(args[1..]));
    AtBound(ts, i + 1, Sparse(args[0], 1));
    LaterEnds(ts, i + 1 + |Sparse(args[0], 1)|, args[1..]);
  }

  lemma {:induction false} LaterReadBack(lim: Limits, ts: seq<Token>, done: seq<Node>, args: seq<Node>, i: nat, k: nat, d: nat)
    requires LaterFitting(lim, ts, i, k, d, args) && |done| + |args| <= lim.args && ArgsPlain(args)
    ensures MoreArguments(lim, ts, done, i, k, d) == Ok(ParsedArgs(done + args, i + |LaterArgs(args)|, k + SparseArgsCost(args)))
    decreases args, 5
  {
    hide LaterFitting, Fitting, Ends, Sparse, SparseCost, SparseHeight, Closed, WellFormed, Plain, ArgsPlain, LaterArgs,
      SparseArgsCost, MoreArguments, Chain;
    if args == [] {
      NoLater(lim, ts, i, k, d, args);
      MoreEnds(lim, ts, done, i, k, d);
      assert done + args == done;
    } else {
      OneLater(lim, ts, i, k, d, args);
      var a, rest := args[0], args[1..];
      var p := Done(a, 1, i + 1, k).value;
      SparseReads(lim, ts, i + 1, k, d, a, 1);
      OneMore(lim, ts, done, i, k, d, true, a, p.next, p.nodes);
      LaterReadBack(lim, ts, done + [a], rest, p.next, p.nodes, d);
      assert done + [a] + rest == done + args;
    }
  }

  predicate ArgsFitting(lim: Limits, ts: seq<Token>, i: nat, k: nat, d: nat, args: seq<Node>) {
    && Closed(ts) && lim.args >= 1 && ArgsPlain(args) && EachFits(args, lim.args)
    && At(ts, i, SparseArgs(args) + [RIGHT]) && Room(lim, k, d, SparseArgsCost(args), SparseArgsHeight(args))
  }

  lemma FirstArg(lim: Limits, ts: seq<Token>, i: nat, k: nat, d: nat, args: seq<Node>)
    requires ArgsFitting(lim, ts, i, k, d, args) && args != []
    ensures Closed(ts) && ArgsPlain(args) && WellFormed(args[0]) && Plain(args[0]) && ArgsPlain(args[1..])
    ensures var next, nodes := i + |Sparse(args[0], 1)|, k + SparseCost(args[0], 1);
      && next < |ts| && Ends(ts[next], 1) && Fitting(lim, ts, i, k, d, args[0], 1)
      && LaterFitting(lim, ts, next, nodes, d, args[1..])
      && |SparseArgs(args)| == |Sparse(args[0], 1)| + |LaterArgs(args[1..])|
      && SparseArgsCost(args) == SparseCost(args[0], 1) + SparseArgsCost(args[1..])
  {
    hide Closed, Sparse, SparseCost, SparseHeight, LaterArgs, SparseArgs, SparseArgsCost, SparseArgsHeight, EachFits, ArgsPlain, At, Ends,
      WellFormed, Plain;
    LaterUnfolds(args);
    EachFitsSplit(args, lim.args);
    var first, later := Sparse(args[0], 1), LaterArgs(args[1..]);
    Regroup(first, later, [RIGHT]);
    AtSplit(ts, i, first, later + [RIGHT]);
    AtBound(ts, i, first);
    LaterEnds(ts, i + |first|, args[1..]);
  }

  lemma NoClosing(lim: Limits, ts: seq<Token>, i: nat, k: nat, d: nat, n: Node)
    requires Fitting(lim, ts, i, k, d, n, 1)
    ensures i < |ts| && ts[i].kind != RPAREN
  {
    SparseStarts(n, 1);
    assert ts[i..i + |Sparse(n, 1)|][0] == Sparse(n, 1)[0];
    hide Sparse;
  }

  lemma {:induction false} SparseStarts(n: Node, need: nat)
    requires WellFormed(n) && Plain(n)
    ensures Sparse(n, need)[0].kind != RPAREN
    decreases n
  {
    if n.Binary? {
      SparseStarts(n.left, LeftNeed(n.op));
      assert Bare(n)[0] == Sparse(n.left, LeftNeed(n.op))[0];
    }
  }

  lemma NoArgsRead(lim: Limits, ts: seq<Token>, args: seq<Node>, i: nat, k: nat, d: nat)
    requires ArgsFitting(lim, ts, i, k, d, args) && args == []
    ensures Arguments(lim, ts, i, k, d) == Ok(ParsedArgs(args, i + |SparseArgs(args)|, k + SparseArgsCost(args)))
  {
    hide Chain;
    NoArguments(lim, ts, i, k, d);
  }

  lemma {:induction false} ArgsReadBack(lim: Limits, ts: seq<Token>, args: seq<Node>, i: nat, k: nat, d: nat)
    requires ArgsFitting(lim, ts, i, k, d, args) && |args| <= lim.args && ArgsPlain(args)
    ensures Arguments(lim, ts, i, k, d) == Ok(ParsedArgs(args, i + |SparseArgs(args)|, k + SparseArgsCost(args)))
    decreases args, 6
  {
    hide ArgsFitting, LaterFitting, Fitting, Ends, Sparse, SparseCost, SparseHeight, Closed, WellFormed, Plain, ArgsPlain, LaterArgs,
      SparseArgs, SparseArgsCost, Arguments, MoreArguments, Chain;
    if args == [] {
      NoArgsRead(lim, ts, args, i, k, d);
    } else {
      FirstArg(lim, ts, i, k, d, args);
      NoClosing(lim, ts, i, k, d, args[0]);
      SparseReads(lim, ts, i, k, d, args[0], 1);
      var p := Done(args[0], 1, i, k).value;
      ArgumentsUnfold(lim, ts, i, k, d, true, args[0], p.next, p.nodes);
      LaterReadBack(lim, ts, [args[0]], args[1..], p.next, p.nodes, d);
      assert [args[0]] + args[1..] == args;
    }
  }

  lemma CalledParts(lim: Limits, ts: seq<Token>, i: nat, k: nat, d: nat, n: Node)
    requires n.Call? && Fitting(lim, ts, i, k, d, n, Hold(n))
    ensures Closed(ts) && WellFormed(n) && Plain(n) && ArgsPlain(n.args) && |n.args| <= lim.args
    ensures var next := i + 2 + |SparseArgs(n.args)|;
      && next < |ts| && ts[i] == Token(IDENT, n.name) && ts[i + 1] == LEFT && ts[next] == RIGHT
      && ArgsFitting(lim, ts, i + 2, k + 1, d + 1, n.args) && d + 1 <= lim.depth && k + 1 <= lim.nodes
      && |Sparse(n, 8)| == 3 + |SparseArgs(n.args)| && SparseCost(n, 8) == 1 + SparseArgsCost(n.args)
  {
    hide Closed, SparseArgs, SparseArgsCost, SparseArgsHeight;
    Outright(n, 8);
    CallLayout(ts, i, Token(IDENT, n.name), SparseArgs(n.args));
  }

  lemma {:induction false} CalledReadsBack(lim: Limits, ts: seq<Token>, i: nat, k: nat, d: nat, n: Node)
    requires n.Call? && Fitting(lim, ts, i, k, d, n, Hold(n)) && Ends(ts[i + |Sparse(n, Hold(n))|], Hold(n))
    ensures Read(lim, Hold(n), ts, i, k, d) == Done(n, Hold(n), i, k)
    decreases n, 1
  {
    hide ArgsFitting, Fitting, Ends, Sparse, SparseCost, SparseHeight, Closed, WellFormed, Plain, ArgsPlain, SparseArgs, SparseArgsCost,
      Arguments, Primary, Chain;
    CalledParts(lim, ts, i, k, d, n);
    ArgsReadBack(lim, ts, n.args, i + 2, k + 1, d + 1);
    CalledReads(lim, ts, i, k, d, true, n, i + 2 + |SparseArgs(n.args)|, k + 1 + SparseArgsCost(n.args));
  }

  // --- the whole text -----------------------------------------------------------------------------------------

  /** What the lexer gives for the token written before a blank. */
  predicate Solid(t: Token) {
    match t.kind
    case IDENT => IsName(t.value)
    case KEYWORD => t.value in KEYWORDS
    case NUMBER => PlainText(t.value)
    case OPERATOR => t.value in {"+", "-", "*", "/", "%", "<", "<=", ">", ">=", "==", "!="}
    case LPAREN => t == LEFT
    case RPAREN => t == RIGHT
    case COMMA => t == NEXT
    case EOF => false
  }

  predicate PlainText(s: string) {
    var p := PointAt(s);
    0 < p < |s| && AllDigits(s[..p]) && AllDigits(s[p + 1..])
  }

  /** The tokens, a blank behind each. */
  function Spread(ts: seq<Token>): string {
    if |ts| == 0 then "" else ts[0].value + (" " + Spread(ts[1..]))
  }

  lemma SolidLexes(t: Token, rest: string)
    requires Solid(t)
    ensures Lex(t.value + (" " + rest)) == Prepend(t, Lex(rest))
  {
    hide Lex;
    var tail := " " + rest;
    RoundTrip.BlankLexes(rest);
    match t.kind {
      case IDENT => RoundTrip.WordLexes(t.value, tail);
      case KEYWORD => RoundTrip.WordLexes(t.value, tail);
      case NUMBER => NumberSolid(t.value, tail);
      case OPERATOR => RoundTrip.SymbolLexes(t.value, tail);
      case LPAREN => RoundTrip.ParenLexes(tail);
      case RPAREN => RoundTrip.ParenLexes(tail);
      case COMMA => RoundTrip.Emits(",", NEXT, tail);
    }
  }

  lemma NumberSolid(s: string, tail: string)
    requires PlainText(s) && tail != "" && tail[0] == ' '
    ensures Lex(s + tail) == Prepend(Token(NUMBER, s), Lex(tail))
  {
    hide Lex;
    var p := PointAt(s);
    assert s == s[..p] + "." + s[p + 1..];
    RoundTrip.DecimalLexes(s[..p], s[p + 1..], tail);
  }

  predicate AllSolid(ts: seq<Token>) {
    forall t :: t in ts ==> Solid(t)
  }

  lemma {:induction false} SpreadLexes(ts: seq<Token>)
    requires AllSolid(ts)
    ensures Lex(Spread(ts)) == Ok(ts + [END])
  {
    hide Solid, Lex;
    if ts == [] {
      Nothing();
      assert ts + [END] == [END];
    } else {
      SpreadLexes(ts[1..]);
      SolidLexes(ts[0], Spread(ts[1..]));
      assert [ts[0]] + (ts[1..] + [END]) == ts + [END];
    }
  }

  lemma Nothing()
    ensures Lex("") == Ok([END])
  {
  }

  lemma {:induction false} SparseIsSolid(n: Node, need: nat)
    requires WellFormed(n) && Plain(n)
    ensures AllSolid(Sparse(n, need))
    decreases n, 1
  {
    BareIsSolid(n);
    hide Bare;
  }

  lemma {:induction false} BareIsSolid(n: Node)
    requires WellFormed(n) && Plain(n)
    ensures AllSolid(Bare(n))
    decreases n, 0
  {
    match n {
      case Number(d) => NumberIsPlainText(d);
      case Unary(op, x) => SparseIsSolid(x, UnaryNeed(op));
      case Binary(op, l, r) => SparseIsSolid(l, LeftNeed(op)); SparseIsSolid(r, RightNeed(op));
      case Call(_, args) => ArgsAreSolid(args);
      case _ =>
    }
  }

  lemma NumberIsPlainText(d: Decimal)
    requires d.Normal() && d.Plain()
    ensures PlainText(ShowDecimal(d))
  {
    PointAfter(d.whole, d.frac);
    var s := d.whole + "." + d.frac;
    assert s[..|d.whole|] == d.whole && s[|d.whole| + 1..] == d.frac;
  }

  lemma {:induction false} ArgsAreSolid(args: seq<Node>)
    requires ArgsPlain(args)
    ensures AllSolid(SparseArgs(args)) && AllSolid(LaterArgs(args))
    decreases args, 2
  {
    if args != [] {
      ArgsPlainSplit(args);
      SparseIsSolid(args[0], 1);
      ArgsAreSolid(args[1..]);
      hide Sparse, Solid;
    }
  }

  lemma SolidIsClosed(ts: seq<Token>)
    requires AllSolid(ts)
    ensures Closed(ts + [END])
  {
    var all := ts + [END];
    forall k | 0 <= k < |all| - 1 ensures all[k].kind != EOF { assert all[k] == ts[k] && ts[k] in ts; }
  }

  /** The table is how the parser reads: any tree, printed with only the parentheses it needs and within the
      limits, is read back as itself, so that no two operators beside each other are taken the wrong way round.
    */
  lemma SparsePrintReadsBack(n: Node)
    requires WellFormed(n) && Plain(n) && ArgsFit(n, SOURCE_LIMITS.args)
    requires Room(SOURCE_LIMITS, 0, 0, SparseCost(n, 1), SparseHeight(n, 1))
    requires |Spread(Sparse(n, 1))| <= MAX_EXPRESSION_LENGTH
    ensures Parse(Spread(Sparse(n, 1))) == Ok(n)
  {
    hide Lex, Chain, Sparse, SparseCost, SparseHeight, Solid, Ends;
    var ts := Sparse(n, 1);
    SparseIsSolid(n, 1);
    SpreadLexes(ts);
    SolidIsClosed(ts);
    assert (ts + [END])[0..|ts|] == ts && (ts + [END])[|ts|] == END;
    ClosersEnd(1);
    SparseReads(SOURCE_LIMITS, ts + [END], 0, 0, 0, n, 1);
  }
}
