/** The canonical rendering identifies the tree, numbers with an exponent included
    (packages/engine/quanta_engine/dsl/nodes.py).
  */
module Renderings {
  import opened Collections
  import opened Syntax
  import opened Decimals
  import RoundTrip

  /** A text is cut in one way only into characters of one kind and a rest that starts with another. */
  lemma CutIsUnique(inside: char -> bool, x: string, r: string, y: string, s: string)
    requires x + r == y + s
    requires (forall k :: 0 <= k < |x| ==> inside(x[k])) && (r == "" || !inside(r[0]))
    requires (forall k :: 0 <= k < |y| ==> inside(y[k])) && (s == "" || !inside(s[0]))
    ensures x == y && r == s
  {
    RunStops(inside, x, r);
    RunStops(inside, y, s);
    assert x == (x + r)[..|x|] && y == (y + s)[..|y|];
    assert r == (x + r)[|x|..] && s == (y + s)[|y|..];
  }

  /** How many leading characters are inside. */
  function Run(inside: char -> bool, s: string): nat {
    if s == "" || !inside(s[0]) then 0 else 1 + Run(inside, s[1..])
  }

  lemma {:induction false} RunStops(inside: char -> bool, x: string, r: string)
    requires (forall k :: 0 <= k < |x| ==> inside(x[k])) && (r == "" || !inside(r[0]))
    ensures Run(inside, x + r) == |x|
  {
    if x == "" {
      assert x + r == r;
    } else {
      assert (x + r)[1..] == x[1..] + r;
      RunStops(inside, x[1..], r);
    }
  }

  // --- numbers ------------------------------------------------------------

  lemma {:induction false} DigitsRead(n: nat)
    ensures AllDigits(Digits(n)) && |Digits(n)| > 0 && Natural(Digits(n)) == n
  {
    if n < 10 {
      assert Digits(n)[..0] == "" && Natural("") == 0;
    } else {
      DigitsRead(n / 10);
      assert Digits(n)[..|Digits(n)| - 1] == Digits(n / 10);
    }
  }

  lemma PaddedRead(n: nat)
    ensures var text := (if n < 10 then "0" else "") + Digits(n);
      AllDigits(text) && Natural(text) == n
  {
    DigitsRead(n);
    if n < 10 {
      var text := "0" + Digits(n);
      assert text[1..] == Digits(n);
      LeadingZeroIsNothing(text);
    } else {
      assert "" + Digits(n) == Digits(n);
    }
  }

  function Size(exponent: int): nat {
    if exponent < 0 then -exponent else exponent
  }

  lemma ExponentIsUnique(e: int, f: int)
    requires ExponentText(e) == ExponentText(f)
    ensures e == f
  {
    hide Digits, Natural;
    PaddedRead(Size(e));
    PaddedRead(Size(f));
    assert ExponentText(e)[0] == ExponentText(f)[0];
    assert ExponentText(e)[1..] == ExponentText(f)[1..];
    assert ExponentText(e)[1..] == (if Size(e) < 10 then "0" else "") + Digits(Size(e));
    assert ExponentText(f)[1..] == (if Size(f) < 10 then "0" else "") + Digits(Size(f));
  }

  lemma MantissaIsUnique(s: string, t: string)
    requires s != "" && t != "" && Mantissa(s) == Mantissa(t)
    ensures s == t
  {
    assert s[0] == Mantissa(s)[0] && t[0] == Mantissa(t)[0];
    if |s| > 1 && |t| > 1 {
      assert Mantissa(s)[2..] == s[1..] && Mantissa(t)[2..] == t[1..];
    }
    assert s == [s[0]] + s[1..] && t == [t[0]] + t[1..];
  }

  lemma ScientificIsUnique(s: string, e: int, t: string, f: int)
    requires s != "" && t != "" && AllDigits(s) && AllDigits(t)
    requires Scientific(s, e) == Scientific(t, f)
    ensures s == t && e == f
  {
    hide ExponentText;
    CutIsUnique(c => c != 'e', Mantissa(s), "e" + ExponentText(e), Mantissa(t), "e" + ExponentText(f));
    MantissaIsUnique(s, t);
    assert ("e" + ExponentText(e))[1..] == ExponentText(e) && ("e" + ExponentText(f))[1..] == ExponentText(f);
    ExponentIsUnique(e, f);
  }

  function Ten(n: nat): real {
    if n == 0 then 1.0 else 10.0 * Ten(n - 1)
  }

  /** The number of a point behind the first n digits of s. */
  function Shifted(n: nat, s: string): real
    requires AllDigits(s)
  {
    Ten(n) * Fraction(s)
  }

  /** A point moved to the front divides by ten for each digit it passes. */
  lemma {:induction false} PointMoves(w: string, f: string)
    requires AllDigits(w) && AllDigits(f)
    ensures Natural(w) as real + Fraction(f) == Shifted(|w|, w + f)
  {
    hide Fraction, Ten, Natural, Shifted;
    if w == "" {
      assert w + f == f;
      NoDigit(f);
    } else {
      var v, tail := w[..|w| - 1], [w[|w| - 1]] + f;
      assert v + tail == w + f;
      PointMoves(v, tail);
      OneDigit(w, f);
    }
  }

  lemma NoDigit(f: string)
    requires AllDigits(f)
    ensures Natural("") == 0 && Shifted(0, f) == Fraction(f)
  {
  }

  lemma FractionStep(c: char, f: string)
    requires IsDigit(c) && AllDigits(f)
    ensures 10.0 * Fraction([c] + f) == DigitValue(c) as real + Fraction(f)
  {
    assert ([c] + f)[1..] == f;
  }

  lemma ShiftStep(n: nat, s: string)
    requires AllDigits(s)
    ensures Shifted(n + 1, s) == 10.0 * Shifted(n, s)
  {
    hide Fraction;
    assert Ten(n + 1) == 10.0 * Ten(n);
    TenTimes(Ten(n), Fraction(s));
  }

  lemma TenTimes(a: real, b: real)
    ensures (10.0 * a) * b == 10.0 * (a * b)
  {
  }

  lemma OneDigit(w: string, f: string)
    requires w != "" && AllDigits(w) && AllDigits(f)
    requires var v, tail := w[..|w| - 1], [w[|w| - 1]] + f;
      Natural(v) as real + Fraction(tail) == Shifted(|v|, w + f)
    ensures Natural(w) as real + Fraction(f) == Shifted(|w|, w + f)
  {
    FractionStep(w[|w| - 1], f);
    ShiftStep(|w| - 1, w + f);
    hide Fraction, Ten, Shifted;
    assert Natural(w) == 10 * Natural(w[..|w| - 1]) + DigitValue(w[|w| - 1]);
  }

  /** A number of 17 digits or more is printed with the exponent of its first digit. */
  lemma LargeIsUnique(a: Decimal, b: Decimal)
    requires a.Decimal? && b.Decimal? && a.Normal() && b.Normal() && |a.whole| == |b.whole|
    requires OrZero(StripRight(a.whole + a.frac)) == OrZero(StripRight(b.whole + b.frac))
    ensures a == b
  {
    hide *;
    LargeValue(a);
    LargeValue(b);
    NormalIsUnique(a, b);
  }

  lemma LargeValue(d: Decimal)
    requires d.Decimal? && d.Normal()
    ensures AllDigits(OrZero(StripRight(d.whole + d.frac)))
    ensures DecimalValue(d) == Shifted(|d.whole|, OrZero(StripRight(d.whole + d.frac)))
  {
    hide StripRight, Fraction, Ten, Overflows;
    StripRightKeepsValue(d.whole + d.frac);
    PointMoves(d.whole, d.frac);
  }

  lemma {:induction false} ZerosLead(s: string)
    ensures forall k :: 0 <= k < LeadingZeros(s) ==> s[k] == '0'
  {
    if s != "" && s[0] == '0' {
      ZerosLead(s[1..]);
      assert forall k :: 1 <= k < LeadingZeros(s) ==> s[k] == s[1..][k - 1];
    }
  }

  predicate Small(d: Decimal) {
    d.Decimal? && d.whole == "0" && d.frac != "0"
  }

  lemma SmallDigits(d: Decimal)
    requires d.Normal() && Small(d)
    ensures LeadingZeros(d.frac) < |d.frac| && StripLeft(d.frac) != ""
  {
    ZerosLead(d.frac);
  }

  /** A number below 1e-4 is printed with the exponent of its first digit that is not zero. */
  lemma SmallIsUnique(a: Decimal, b: Decimal)
    requires a.Normal() && b.Normal() && Small(a) && Small(b) && LeadingZeros(a.frac) == LeadingZeros(b.frac)
    requires OrZero(StripLeft(a.frac)) == OrZero(StripLeft(b.frac))
    ensures a == b
  {
    SmallDigits(a);
    SmallDigits(b);
    ZerosLead(a.frac);
    ZerosLead(b.frac);
    var n := LeadingZeros(a.frac);
    assert a.frac[..n] == b.frac[..n];
    assert a.frac == a.frac[..n] + a.frac[n..] && b.frac == b.frac[..n] + b.frac[n..];
  }

  /** What a number with an exponent is printed from. */
  function Significand(d: Decimal): (r: string)
    requires d.Decimal? && d.Normal()
    ensures r != "" && AllDigits(r)
  {
    if |d.whole| > 16 then OrZero(StripRight(d.whole + d.frac)) else OrZero(StripLeft(d.frac))
  }

  function Exponent(d: Decimal): int
    requires d.Decimal?
  {
    if |d.whole| > 16 then |d.whole| - 1 else -(LeadingZeros(d.frac) + 1)
  }

  lemma PlainIsUnique(a: Decimal, b: Decimal)
    requires a.Decimal? && b.Decimal? && a.Normal() && b.Normal()
    requires a.whole + "." + a.frac == b.whole + "." + b.frac
    ensures a == b
  {
    hide Overflows;
    Regroup(a.whole, ".", a.frac);
    Regroup(b.whole, ".", b.frac);
    CutIsUnique(c => IsDigit(c), a.whole, "." + a.frac, b.whole, "." + b.frac);
    assert ("." + a.frac)[1..] == a.frac && ("." + b.frac)[1..] == b.frac;
  }

  lemma PlainHasNoExponent(a: Decimal, b: Decimal)
    requires a.Decimal? && b.Decimal? && a.Normal() && b.Normal() && a.Plain() && !b.Plain()
    ensures ShowDecimal(a) != ShowDecimal(b)
  {
    hide ExponentText, StripLeft, StripRight;
    var n := |Mantissa(Significand(b))|;
    assert ShowDecimal(b)[n] == 'e';
  }

  /** Two numbers print alike only if they are the same number. */
  lemma ShownIsUnique(a: Decimal, b: Decimal)
    requires a.Decimal? && b.Decimal? && a.Normal() && b.Normal()
    ensures ShowDecimal(a) == ShowDecimal(b) <==> a == b
  {
    if ShowDecimal(a) == ShowDecimal(b) {
      hide Scientific, StripRight, StripLeft, Overflows, LeadingZeros;
      if a.Plain() && b.Plain() {
        PlainIsUnique(a, b);
      } else if a.Plain() {
        PlainHasNoExponent(a, b);
      } else if b.Plain() {
        PlainHasNoExponent(b, a);
      } else {
        ScientificIsUnique(Significand(a), Exponent(a), Significand(b), Exponent(b));
        if |a.whole| > 16 { LargeIsUnique(a, b); } else { SmallIsUnique(a, b); }
      }
    }
  }

  // --- trees --------------------------------------------------------------

  /** A character that no number and no word has: what stands around them. */
  predicate Outside(c: char) {
    c in {' ', '(', ')', ','}
  }

  predicate Unbroken(s: string) {
    forall k :: 0 <= k < |s| ==> !Outside(s[k])
  }

  predicate HasHead(n: Node) {
    !n.Unary? && !n.Binary?
  }

  /** The number or word that a rendering without parentheses of its own starts with. */
  function Head(n: Node): string
    requires WellFormed(n) && HasHead(n)
  {
    match n
    case Number(d) => ShowDecimal(d)
    case Boolean(b) => if b then "true" else "false"
    case Identifier(name) => name
    case Call(name, _) => name
  }

  /** What follows the head when `rest` follows the tree. */
  function Behind(n: Node, rest: string): string
    requires WellFormed(n) && HasHead(n)
  {
    if n.Call? then "(" + (ShowArgs(n.args) + (")" + rest)) else rest
  }

  lemma NumberUnbroken(d: Decimal)
    requires d.Normal()
    ensures var s := ShowDecimal(d); s != "" && Unbroken(s) && (d.Decimal? ==> IsDigit(s[0]))
  {
    hide Scientific, StripLeft, StripRight, LeadingZeros, Overflows;
    if d.Decimal? && !d.Plain() { ScientificUnbroken(Significand(d), Exponent(d)); }
  }

  lemma ScientificUnbroken(significant: string, exponent: int)
    requires significant != "" && AllDigits(significant)
    ensures var s := Scientific(significant, exponent); s != "" && Unbroken(s) && IsDigit(s[0])
  {
    DigitsRead(Size(exponent));
    hide Digits;
    var m, x := Mantissa(significant), ExponentText(exponent);
    assert Unbroken(m) && Unbroken(x);
  }

  lemma HeadIsUnbroken(n: Node)
    requires WellFormed(n) && HasHead(n)
    ensures var s := Head(n); s != "" && Unbroken(s) && s[0] != '-' && s != "not"
  {
    if n.Number? {
      NumberUnbroken(n.value);
      hide ShowDecimal;
    }
  }

  lemma HeadAndBehind(n: Node, rest: string)
    requires WellFormed(n) && HasHead(n)
    ensures Show(n) + rest == Head(n) + Behind(n, rest)
  {
    if n.Call? { RoundTrip.CallText(n, rest); }
  }

  /** A tree without parentheses of its own and one with them never print alike. */
  lemma HeadOrParenthesis(n: Node, rest: string)
    requires WellFormed(n)
    ensures (Show(n) + rest) != "" && (HasHead(n) <==> (Show(n) + rest)[0] != '(')
  {
    hide ShowDecimal, ShowArgs;
    if HasHead(n) {
      HeadIsUnbroken(n);
      HeadAndBehind(n, rest);
    }
  }

  lemma SameHead(a: Node, b: Node)
    requires WellFormed(a) && WellFormed(b) && HasHead(a) && HasHead(b) && a.Call? == b.Call?
    requires Head(a) == Head(b)
    ensures if a.Call? then a.name == b.name else Inf(a) == Inf(b)
  {
    hide ShowDecimal, Decimal.Normal;
    if a.Number? { NumberUnbroken(a.value); }
    if b.Number? { NumberUnbroken(b.value); }
    if a.Number? && b.Number? && a.value.Decimal? && b.value.Decimal? {
      ShownIsUnique(a.value, b.value);
    } else {
      InfiniteShown();
    }
  }

  lemma InfiniteShown()
    ensures ShowDecimal(Infinite) == "inf"
  {
  }

  /** Equal texts of two trees without parentheses of their own have equal heads. */
  lemma HeadsDecode(a: Node, r: string, b: Node, s: string)
    requires WellFormed(a) && WellFormed(b) && HasHead(a) && HasHead(b)
    requires RoundTrip.Follows(r) && RoundTrip.Follows(s) && Show(a) + r == Show(b) + s
    ensures a.Call? == b.Call? && Behind(a, r) == Behind(b, s)
    ensures if a.Call? then a.name == b.name else Inf(a) == Inf(b)
  {
    HeadAndBehind(a, r);
    HeadAndBehind(b, s);
    HeadIsUnbroken(a);
    HeadIsUnbroken(b);
    hide Show, ShowArgs, Head, ShowDecimal, Inf, WellFormed;
    CutIsUnique(c => !Outside(c), Head(a), Behind(a, r), Head(b), Behind(b, s));
    SameHead(a, b);
  }

  lemma SkipSame(front: string, x: string, y: string)
    requires front + x == front + y
    ensures x == y
  {
    assert x == (front + x)[|front|..] && y == (front + y)[|front|..];
  }

  /** No operand starts as what a sign and its operand print does. */
  lemma NoOperandStarts(op: UnaryOp, x: string, l: Node, tail: string)
    requires WellFormed(l) && tail != "" && tail[0] == ' '
    ensures Show(l) + tail != (if op.Not? then "not" else "-") + ((if op.Not? then " " else "") + x)
  {
    HeadOrParenthesis(l, tail);
    hide Show, WellFormed;
    if HasHead(l) {
      HeadIsUnbroken(l);
      HeadAndBehind(l, tail);
      hide Head;
      if op.Not? && "not" + (" " + x) == Show(l) + tail {
        CutIsUnique(c => !Outside(c), "not", " " + x, Head(l), Behind(l, tail));
      }
    }
  }

  lemma SignIsNoOperand(op: UnaryOp, x: string, l: Node, tail: string)
    requires WellFormed(l) && tail != "" && tail[0] == ' '
    ensures RoundTrip.SignText(op) + x != "(" + (Show(l) + tail)
  {
    NoOperandStarts(op, x, l, tail);
    hide Show, WellFormed;
    var rest := (if op.Not? then "not" else "-") + ((if op.Not? then " " else "") + x);
    assert RoundTrip.SignText(op) + x == "(" + rest;
    if "(" + rest == "(" + (Show(l) + tail) { SkipSame("(", rest, Show(l) + tail); }
  }

  lemma OperatorsDecode(p: BinaryOp, x: string, q: BinaryOp, y: string)
    requires " " + OpText(p) + " " + x == " " + OpText(q) + " " + y
    ensures p == q && x == y
  {
    OpTextIsUnbroken(p);
    OpTextIsUnbroken(q);
    hide OpText;
    Regroup(" " + OpText(p), " ", x);
    Regroup(" ", OpText(p), " " + x);
    Regroup(" " + OpText(q), " ", y);
    Regroup(" ", OpText(q), " " + y);
    SkipSame(" ", OpText(p) + (" " + x), OpText(q) + (" " + y));
    CutIsUnique(c => c != ' ', OpText(p), " " + x, OpText(q), " " + y);
    SkipSame(" ", x, y);
    OpTextIsUnique(p, q);
  }

  lemma OpTextIsUnbroken(op: BinaryOp)
    ensures forall k :: 0 <= k < |OpText(op)| ==> OpText(op)[k] != ' '
  {
  }

  lemma OpTextIsUnique(p: BinaryOp, q: BinaryOp)
    requires OpText(p) == OpText(q)
    ensures p == q
  {
  }

  lemma SignsDecode(p: UnaryOp, x: string, q: UnaryOp, y: string)
    requires RoundTrip.SignText(p) + x == RoundTrip.SignText(q) + y
    ensures p == q && x == y
  {
    assert (RoundTrip.SignText(p) + x)[1] == (RoundTrip.SignText(q) + y)[1];
    SkipSame(RoundTrip.SignText(p), x, y);
  }

  /** A rendering can be read off the front of a text in one way only, so one text is the rendering of one
      tree, but for overflowed numbers printed as the name inf.
    */
  lemma {:induction false} ShowDecodes(a: Node, r: string, b: Node, s: string)
    requires WellFormed(a) && WellFormed(b) && RoundTrip.Follows(r) && RoundTrip.Follows(s)
    requires Show(a) + r == Show(b) + s
    ensures Inf(a) == Inf(b) && r == s
    decreases a, 2
  {
    hide *;
    HeadOrParenthesis(a, r);
    HeadOrParenthesis(b, s);
    if HasHead(a) {
      HeadsDecode(a, r, b, s);
      if a.Call? { CallDecodes(a, r, b, s); } else { LeafBehind(a, r, b, s); }
    } else {
      ParenthesesDecode(a, r, b, s);
    }
  }

  lemma LeafBehind(a: Node, r: string, b: Node, s: string)
    requires WellFormed(a) && WellFormed(b) && HasHead(a) && HasHead(b) && !a.Call? && !b.Call?
    requires Behind(a, r) == Behind(b, s)
    ensures r == s
  {
  }

  lemma {:induction false} CallDecodes(a: Node, r: string, b: Node, s: string)
    requires WellFormed(a) && WellFormed(b) && a.Call? && b.Call? && a.name == b.name
    requires Behind(a, r) == Behind(b, s)
    ensures Inf(a) == Inf(b) && r == s
    decreases a.args, 4
  {
    hide ShowArgs;
    var x, y := ShowArgs(a.args) + (")" + r), ShowArgs(b.args) + (")" + s);
    assert Behind(a, r) == "(" + x && Behind(b, s) == "(" + y;
    hide *;
    SkipSame("(", x, y);
    CallParts(a);
    CallParts(b);
    ArgsDecode(a.args, r, b.args, s);
  }

  lemma CallParts(n: Node)
    requires n.Call? && WellFormed(n)
    ensures forall a :: a in n.args ==> WellFormed(a)
    ensures Inf(n) == Call(n.name, InfAll(n.args))
  {
  }

  /** What follows the first argument. */
  function AfterFirst(args: seq<Node>, rest: string): string
    requires args != [] && forall a :: a in args ==> WellFormed(a)
  {
    if |args| == 1 then ")" + rest else ", " + (ShowArgs(args[1..]) + (")" + rest))
  }

  lemma FirstArg(args: seq<Node>, rest: string)
    requires args != [] && forall a :: a in args ==> WellFormed(a)
    ensures WellFormed(args[0]) && forall a :: a in args[1..] ==> WellFormed(a)
    ensures ShowArgs(args) + (")" + rest) == Show(args[0]) + AfterFirst(args, rest)
    ensures RoundTrip.Follows(AfterFirst(args, rest))
    ensures InfAll(args) == [Inf(args[0])] + InfAll(args[1..])
  {
    hide Show, WellFormed;
    if |args| > 1 { RoundTrip.ArgsText(args, ")" + rest); }
  }

  lemma NoArgs(rest: string)
    ensures ShowArgs([]) + (")" + rest) == ")" + rest && InfAll([]) == []
  {
  }

  lemma FirstArgIsNoEnd(n: Node, rest: string)
    requires WellFormed(n)
    ensures (Show(n) + rest) != "" && (Show(n) + rest)[0] != ')'
  {
    HeadOrParenthesis(n, rest);
    hide Show, ShowArgs, WellFormed;
    if HasHead(n) {
      HeadIsUnbroken(n);
      HeadAndBehind(n, rest);
    }
  }

  /** An empty list and one with arguments never print alike. */
  lemma ArgsOrNone(args: seq<Node>, rest: string)
    requires forall a :: a in args ==> WellFormed(a)
    ensures (ShowArgs(args) + (")" + rest))[0] == ')' <==> args == []
  {
    hide *;
    if args == [] {
      NoArgs(rest);
    } else {
      FirstArg(args, rest);
      FirstArgIsNoEnd(args[0], AfterFirst(args, rest));
    }
  }

  lemma AfterFirstDecodes(xs: seq<Node>, r: string, ys: seq<Node>, s: string)
    requires xs != [] && ys != []
    requires (forall a :: a in xs ==> WellFormed(a)) && forall a :: a in ys ==> WellFormed(a)
    requires AfterFirst(xs, r) == AfterFirst(ys, s)
    ensures |xs| == 1 <==> |ys| == 1
    ensures if |xs| == 1 then r == s
            else ShowArgs(xs[1..]) + (")" + r) == ShowArgs(ys[1..]) + (")" + s)
  {
    hide ShowArgs, WellFormed;
    assert AfterFirst(xs, r)[0] == AfterFirst(ys, s)[0];
    if |xs| == 1 {
      SkipSame(")", r, s);
    } else {
      SkipSame(", ", ShowArgs(xs[1..]) + (")" + r), ShowArgs(ys[1..]) + (")" + s));
    }
  }

  lemma {:induction false} ArgsDecode(xs: seq<Node>, r: string, ys: seq<Node>, s: string)
    requires (forall a :: a in xs ==> WellFormed(a)) && forall a :: a in ys ==> WellFormed(a)
    requires ShowArgs(xs) + (")" + r) == ShowArgs(ys) + (")" + s)
    ensures InfAll(xs) == InfAll(ys) && r == s
    decreases xs, 3
  {
    hide *;
    ArgsOrNone(xs, r);
    ArgsOrNone(ys, s);
    if xs == [] {
      NoArgs(r);
      NoArgs(s);
      SkipSame(")", r, s);
    } else {
      FirstArg(xs, r);
      FirstArg(ys, s);
      ShowDecodes(xs[0], AfterFirst(xs, r), ys[0], AfterFirst(ys, s));
      AfterFirstDecodes(xs, r, ys, s);
      if |xs| > 1 {
        ArgsDecode(xs[1..], r, ys[1..], s);
      } else {
        assert xs[1..] == [] && ys[1..] == [];
      }
    }
  }

  lemma InfParts(n: Node)
    ensures n.Unary? ==> Inf(n) == Unary(n.uop, Inf(n.operand))
    ensures n.Binary? ==> Inf(n) == Binary(n.op, Inf(n.left), Inf(n.right))
    ensures HasHead(n) <==> !n.Unary? && !n.Binary?
  {
  }

  /** The text of a binary tree behind its left operand. */
  function BehindLeft(n: Node, rest: string): string
    requires n.Binary? && WellFormed(n)
  {
    " " + OpText(n.op) + " " + (Show(n.right) + (")" + rest))
  }

  lemma BinaryLayout(n: Node, rest: string)
    requires n.Binary? && WellFormed(n)
    ensures WellFormed(n.left) && WellFormed(n.right)
    ensures Show(n) + rest == "(" + (Show(n.left) + BehindLeft(n, rest))
    ensures RoundTrip.Follows(BehindLeft(n, rest)) && BehindLeft(n, rest) != "" && BehindLeft(n, rest)[0] == ' '
  {
    RoundTrip.BinaryText(n, rest);
    hide Show, WellFormed, OpText;
  }

  lemma {:induction false} ParenthesesDecode(a: Node, r: string, b: Node, s: string)
    requires WellFormed(a) && WellFormed(b) && !HasHead(a) && !HasHead(b)
    requires Show(a) + r == Show(b) + s
    ensures Inf(a) == Inf(b) && r == s
    decreases a, 1
  {
    hide *;
    InfParts(a);
    InfParts(b);
    if a.Unary? && b.Unary? {
      UnaryDecodes(a, r, b, s);
    } else if a.Unary? {
      RoundTrip.UnaryText(a, r);
      BinaryLayout(b, s);
      SignIsNoOperand(a.uop, Show(a.operand) + (")" + r), b.left, BehindLeft(b, s));
    } else if b.Unary? {
      RoundTrip.UnaryText(b, s);
      BinaryLayout(a, r);
      SignIsNoOperand(b.uop, Show(b.operand) + (")" + s), a.left, BehindLeft(a, r));
    } else {
      BinaryDecodes(a, r, b, s);
    }
  }

  lemma {:induction false} UnaryDecodes(a: Node, r: string, b: Node, s: string)
    requires WellFormed(a) && WellFormed(b) && a.Unary? && b.Unary?
    requires Show(a) + r == Show(b) + s
    ensures Inf(a) == Inf(b) && r == s
    decreases a, 0
  {
    hide *;
    InfParts(a);
    InfParts(b);
    RoundTrip.UnaryText(a, r);
    RoundTrip.UnaryText(b, s);
    RoundTrip.FollowsParts(r);
    RoundTrip.FollowsParts(s);
    SignsDecode(a.uop, Show(a.operand) + (")" + r), b.uop, Show(b.operand) + (")" + s));
    ShowDecodes(a.operand, ")" + r, b.operand, ")" + s);
    SkipSame(")", r, s);
  }

  lemma {:induction false} BinaryDecodes(a: Node, r: string, b: Node, s: string)
    requires WellFormed(a) && WellFormed(b) && a.Binary? && b.Binary?
    requires Show(a) + r == Show(b) + s
    ensures Inf(a) == Inf(b) && r == s
    decreases a, 0
  {
    BinaryLayout(a, r);
    BinaryLayout(b, s);
    assert BehindLeft(a, r) == " " + OpText(a.op) + " " + (Show(a.right) + (")" + r));
    assert BehindLeft(b, s) == " " + OpText(b.op) + " " + (Show(b.right) + (")" + s));
    hide *;
    InfParts(a);
    InfParts(b);
    SkipSame("(", Show(a.left) + BehindLeft(a, r), Show(b.left) + BehindLeft(b, s));
    ShowDecodes(a.left, BehindLeft(a, r), b.left, BehindLeft(b, s));
    OperatorsDecode(a.op, Show(a.right) + (")" + r), b.op, Show(b.right) + (")" + s));
    RoundTrip.FollowsParts(r);
    RoundTrip.FollowsParts(s);
    ShowDecodes(a.right, ")" + r, b.right, ")" + s);
    SkipSame(")", r, s);
  }
}
