/** The expression tree and its canonical printer (packages/engine/quanta_engine/dsl/nodes.py).

    A number literal is an exact decimal in normal form: the digits before the point without
    leading zeros and the digits after it without trailing zeros, each at least one digit.
    A literal too large for a double is infinity, whatever its digits.
  */
module Syntax {

  // --- characters -------------------------------------------------------

  predicate IsDigit(c: char) { '0' <= c <= '9' }

  predicate IsAlpha(c: char) { 'a' <= c <= 'z' || 'A' <= c <= 'Z' }

  predicate IsWordChar(c: char) { IsDigit(c) || IsAlpha(c) || c == '_' }

  predicate AllDigits(s: string) { forall k :: 0 <= k < |s| ==> IsDigit(s[k]) }

  predicate AllWordChars(s: string) { forall k :: 0 <= k < |s| ==> IsWordChar(s[k]) }

  const KEYWORDS := {"and", "or", "not", "true", "false"}

  predicate IsWord(s: string) {
    |s| > 0 && !IsDigit(s[0]) && AllWordChars(s)
  }

  predicate IsName(s: string) {
    IsWord(s) && s !in KEYWORDS
  }

  // --- numbers ----------------------------------------------------------

  datatype Decimal = Decimal(whole: string, frac: string) | Infinite {
    predicate Normal() {
      Decimal? ==>
        && |whole| > 0 && AllDigits(whole) && (|whole| == 1 || whole[0] != '0')
        && |frac| > 0 && AllDigits(frac) && (|frac| == 1 || frac[|frac| - 1] != '0')
        && !Overflows(whole)
    }

    /** Whether repr() prints digits around a point: zero, or at least 1e-4 and below 1e16. */
    predicate Plain() {
      && Decimal? && |whole| <= 16
      && (whole == "0" ==> frac == "0" || LeadingZeros(frac) < 4)
    }
  }

  function LeadingZeros(s: string): (n: nat)
    ensures n <= |s|
    ensures n < |s| ==> s[n] != '0'
  {
    if s == "" || s[0] != '0' then 0 else 1 + LeadingZeros(s[1..])
  }

  function StripLeft(s: string): string {
    s[LeadingZeros(s)..]
  }

  function StripRight(s: string): (r: string)
    ensures |r| <= |s| && r == s[..|r|]
    ensures r == "" || r[|r| - 1] != '0'
  {
    if s == "" || s[|s| - 1] != '0' then s else StripRight(s[..|s| - 1])
  }

  function OrZero(s: string): string {
    if s == "" then "0" else s
  }

  const TWO_TO_320: nat := 0x1_00000000_00000000_00000000_00000000_00000000_00000000_00000000_00000000_00000000_00000000

  /** The least number float() rounds up to infinity: 2^1024 - 2^970, half a step past the largest double. */
  const OVERFLOW: nat := 0xFFFF_FFFF_FFFF_FC00 * TWO_TO_320 * TWO_TO_320 * TWO_TO_320

  predicate Overflows(whole: string)
    requires AllDigits(whole)
  {
    Natural(whole) >= OVERFLOW
  }

  /** float() of the digits on either side of a point. */
  function Normalise(whole: string, frac: string): (d: Decimal)
    requires AllDigits(whole) && AllDigits(frac)
    ensures d.Normal()
  {
    var w := OrZero(StripLeft(whole));
    if Overflows(w) then Infinite else Decimal(w, OrZero(StripRight(frac)))
  }

  function DigitValue(c: char): nat
    requires IsDigit(c)
  {
    c as int - '0' as int
  }

  function Natural(s: string): nat
    requires AllDigits(s)
  {
    if s == "" then 0 else 10 * Natural(s[..|s| - 1]) + DigitValue(s[|s| - 1])
  }

  function Fraction(s: string): real
    requires AllDigits(s)
  {
    if s == "" then 0.0 else (DigitValue(s[0]) as real + Fraction(s[1..])) / 10.0
  }

  function DecimalValue(d: Decimal): real
    requires d.Decimal?
  {
    if AllDigits(d.whole) && AllDigits(d.frac) then Natural(d.whole) as real + Fraction(d.frac) else 0.0
  }

  function Digits(n: nat): string {
    if n < 10 then ['0' + n as char] else Digits(n / 10) + ['0' + (n % 10) as char]
  }

  /** One digit, and the rest behind a point. */
  function Mantissa(significant: string): string
    requires |significant| > 0
  {
    [significant[0]] + (if |significant| > 1 then "." + significant[1..] else "")
  }

  /** At least two digits behind a sign. */
  function ExponentText(exponent: int): string {
    var size := if exponent < 0 then -exponent else exponent;
    (if exponent < 0 then "-" else "+") + ((if size < 10 then "0" else "") + Digits(size))
  }

  /** repr() with an exponent. */
  function Scientific(significant: string, exponent: int): string
    requires |significant| > 0
  {
    Mantissa(significant) + ("e" + ExponentText(exponent))
  }

  function ShowDecimal(d: Decimal): string
    requires d.Normal()
  {
    if d.Infinite? then "inf"
    else if d.Plain() then d.whole + "." + d.frac
    else if |d.whole| > 16 then
      Scientific(OrZero(StripRight(d.whole + d.frac)), |d.whole| - 1)
    else
      Scientific(OrZero(StripLeft(d.frac)), -(LeadingZeros(d.frac) + 1))
  }

  // --- trees ------------------------------------------------------------

  datatype BinaryOp = Plus | Minus | Times | Over | Percent
                    | Less | LessEqual | Greater | GreaterEqual | Same | Different | Both | Either

  datatype UnaryOp = Negate | Not

  datatype Node =
    | Number(value: Decimal)
    | Boolean(flag: bool)
    | Identifier(name: string)
    | Call(name: string, args: seq<Node>)
    | Unary(uop: UnaryOp, operand: Node)
    | Binary(op: BinaryOp, left: Node, right: Node)

  function OpText(op: BinaryOp): string {
    match op
    case Plus => "+" case Minus => "-" case Times => "*" case Over => "/" case Percent => "%"
    case Less => "<" case LessEqual => "<=" case Greater => ">" case GreaterEqual => ">="
    case Same => "==" case Different => "!=" case Both => "and" case Either => "or"
  }

  /** What the parser can build: normal numbers, and names that are words but not keywords. */
  predicate WellFormed(n: Node) {
    match n
    case Number(d) => d.Normal()
    case Boolean(_) => true
    case Identifier(name) => IsName(name)
    case Call(name, args) => IsName(name) && forall a :: a in args ==> WellFormed(a)
    case Unary(_, x) => WellFormed(x)
    case Binary(_, l, r) => WellFormed(l) && WellFormed(r)
  }

  /** The tree that the rendering is read as: an overflowed number prints as the name inf. */
  function Inf(n: Node): (r: Node)
    ensures WellFormed(n) ==> WellFormed(r)
    decreases n, 0
  {
    match n
    case Number(d) => if d.Infinite? then Identifier("inf") else n
    case Boolean(_) => n
    case Identifier(_) => n
    case Call(name, args) => Call(name, InfAll(args))
    case Unary(op, x) => Unary(op, Inf(x))
    case Binary(op, l, r) => Binary(op, Inf(l), Inf(r))
  }

  function InfAll(args: seq<Node>): (r: seq<Node>)
    ensures |r| == |args|
    ensures (forall a :: a in args ==> WellFormed(a)) ==> forall b :: b in r ==> WellFormed(b)
    decreases args, 1
  {
    if |args| == 0 then [] else [Inf(args[0])] + InfAll(args[1..])
  }

  /** No number prints with an exponent. */
  predicate Legible(n: Node) {
    match n
    case Number(d) => d.Infinite? || d.Plain()
    case Boolean(_) => true
    case Identifier(_) => true
    case Call(_, args) => forall a :: a in args ==> Legible(a)
    case Unary(_, x) => Legible(x)
    case Binary(_, l, r) => Legible(l) && Legible(r)
  }

  /** Every number prints as digits around a point. */
  predicate Plain(n: Node) {
    match n
    case Number(d) => d.Plain()
    case Boolean(_) => true
    case Identifier(_) => true
    case Call(_, args) => forall a :: a in args ==> Plain(a)
    case Unary(_, x) => Plain(x)
    case Binary(_, l, r) => Plain(l) && Plain(r)
  }

  /** The canonical rendering: every operator in its own parentheses. */
  function Show(n: Node): string
    requires WellFormed(n)
    decreases n, 0
  {
    match n
    case Number(d) => ShowDecimal(d)
    case Boolean(b) => if b then "true" else "false"
    case Identifier(name) => name
    case Call(name, args) => name + "(" + ShowArgs(args) + ")"
    case Unary(op, x) => (if op.Not? then "(not " else "(-") + Show(x) + ")"
    case Binary(op, l, r) => "(" + Show(l) + " " + OpText(op) + " " + Show(r) + ")"
  }

  /** ', '.join over the arguments. */
  function ShowArgs(args: seq<Node>): string
    requires forall a :: a in args ==> WellFormed(a)
    decreases args, 1
  {
    if |args| == 0 then ""
    else if |args| == 1 then Show(args[0])
    else Show(args[0]) + ", " + ShowArgs(args[1..])
  }

  // --- walking ----------------------------------------------------------

  /** The tree's nodes, parents before children and left before right. */
  function Preorder(n: Node): seq<Node>
    decreases n, 0
  {
    match n
    case Call(_, args) => [n] + PreorderAll(args)
    case Unary(_, x) => [n] + Preorder(x)
    case Binary(_, l, r) => [n] + Preorder(l) + Preorder(r)
    case _ => [n]
  }

  function PreorderAll(ns: seq<Node>): seq<Node>
    decreases ns, 1
  {
    if |ns| == 0 then [] else Preorder(ns[0]) + PreorderAll(ns[1..])
  }

  /** Stack contents in the order they will be popped: the end of the list first. */
  function Popped(stack: seq<Node>): seq<Node> {
    if |stack| == 0 then [] else Preorder(stack[|stack| - 1]) + Popped(stack[..|stack| - 1])
  }

  function Reversed(ns: seq<Node>): (r: seq<Node>)
    ensures |r| == |ns|
  {
    if |ns| == 0 then [] else Reversed(ns[1..]) + [ns[0]]
  }

  lemma {:induction false} PoppedExtend(stack: seq<Node>, ns: seq<Node>)
    ensures Popped(stack + Reversed(ns)) == PreorderAll(ns) + Popped(stack)
  {
    hide Preorder;
    if |ns| == 0 {
      assert stack + Reversed(ns) == stack;
    } else {
      var below := stack + Reversed(ns[1..]);
      assert stack + Reversed(ns) == below + [ns[0]];
      assert (below + [ns[0]])[..|below|] == below;
      PoppedExtend(stack, ns[1..]);
    }
  }

  function Children(n: Node): seq<Node> {
    match n
    case Call(_, args) => args
    case Unary(_, x) => [x]
    case Binary(_, l, r) => [l, r]
    case _ => []
  }

  lemma PreorderIsSelfThenChildren(n: Node)
    ensures Preorder(n) == [n] + PreorderAll(Children(n))
  {
    match n {
      case Binary(_, l, r) =>
        assert PreorderAll([l, r]) == Preorder(l) + PreorderAll([r]);
        assert PreorderAll([r]) == Preorder(r) + [];
      case Unary(_, x) =>
        assert PreorderAll([x]) == Preorder(x) + [];
      case _ =>
    }
  }

  /** The iterative walk visits exactly the recursive preorder, however deep the tree is. */
  method Walk(node: Node) returns (found: seq<Node>)
    ensures found == Preorder(node)
  {
    found := [];
    var stack := [node];
    while |stack| > 0
      invariant found + Popped(stack) == Preorder(node)
      decreases |Popped(stack)|
    {
      var current, rest := stack[|stack| - 1], stack[..|stack| - 1];
      PreorderIsSelfThenChildren(current);
      PoppedExtend(rest, Children(current));
      found := found + [current];
      stack := rest + Reversed(Children(current));
    }
  }
}
