/** What every operator and function of the language computes, bar by bar and in real arithmetic
    (packages/engine/quanta_engine/dsl/evaluator.py).
  */
module Operators {
  import opened Wrappers
  import opened Num
  import opened Series
  import opened Syntax
  import opened Evaluator

  // --- reading a value at a bar ---------------------------------------------

  /** A single value speaks for every bar. */
  predicate SpeaksOf(v: Value, i: nat) {
    IsArray(v) ==> i < Length(v)
  }

  /** The number a value shows at a bar; a truth value counts as one or zero. */
  function NumberAt(v: Value, i: nat): Num
    requires SpeaksOf(v, i)
  {
    match v
    case Scalar(n) => n
    case Flag(b) => Fin(if b then 1.0 else 0.0)
    case Cells(s) => s[i]
    case Mask(m) => Fin(if m[i] then 1.0 else 0.0)
  }

  /** One part, or both, decide whether the result is one value or one a bar. */
  predicate Spread(a: Value, b: Value, r: Value, size: nat) {
    && (IsArray(r) <==> IsArray(a) || IsArray(b)) && HasLength(r, size)
  }

  lemma NumericShows(v: Value, i: nat)
    requires SpeaksOf(v, i)
    ensures SpeaksOf(Numeric(v), i) && CellAt(Numeric(v), i) == NumberAt(v, i)
  {
  }

  // --- arithmetic -------------------------------------------------------------

  predicate IsArithmetic(op: BinaryOp) {
    op.Plus? || op.Minus? || op.Times? || op.Over? || op.Percent?
  }

  predicate IsRemainder(k: int, x: real, y: real, z: real) {
    x == k as real * y + z && if y > 0.0 then 0.0 <= z < y else y < z <= 0.0
  }

  /** The result z of x op y on numbers. */
  ghost predicate RealLaw(op: BinaryOp, x: real, y: real, z: Num) {
    match op
    case Plus => z == Fin(x + y)
    case Minus => z == Fin(x - y)
    case Times => z == Fin(x * y)
    case Over =>
      if y != 0.0 then z.Fin? && z.v * y == x
      else z == if x > 0.0 then PosInf else if x < 0.0 then NegInf else NaN
    case Percent => if y == 0.0 then z.NaN? else z.Fin? && exists k :: IsRemainder(k, x, y, z.v)
    case _ => true
  }

  /** The sign of a number that is not missing. */
  function Sign(a: Num): int {
    match a
    case PosInf => 1
    case NegInf => -1
    case Fin(x) => if x > 0.0 then 1 else if x < 0.0 then -1 else 0
    case NaN => 0
  }

  predicate Endless(a: Num) {
    a.PosInf? || a.NegInf?
  }

  /** The result z of x op y where one of them is infinite and none is missing. */
  predicate EndlessLaw(op: BinaryOp, x: Num, y: Num, z: Num) {
    match op
    case Plus => z == if !Endless(y) || x == y then x else if !Endless(x) then y else NaN
    case Minus => if !Endless(y) then z == x else if !Endless(x) then Endless(z) && z != y else z == if x == y then NaN else x
    case Times => if Sign(x) == 0 || Sign(y) == 0 then z.NaN? else Endless(z) && Sign(z) == Sign(x) * Sign(y)
    case Over =>
      if Endless(x) && Endless(y) then z.NaN?
      else if Endless(y) then z == Fin(0.0)
      else Endless(z) && Sign(z) == if Sign(y) < 0 then -Sign(x) else Sign(x)
    case Percent =>
      if Endless(x) then z.NaN? else z == if Sign(x) == 0 || Sign(x) == Sign(y) then x else y
    case _ => true
  }

  ghost predicate ArithmeticLaw(op: BinaryOp, x: Num, y: Num, z: Num) {
    if x.NaN? || y.NaN? then z.NaN?
    else if x.Fin? && y.Fin? then RealLaw(op, x.v, y.v, z)
    else EndlessLaw(op, x, y, z)
  }

  lemma FloorLeavesRemainder(x: real, y: real)
    requires y != 0.0
    ensures IsRemainder((x / y).Floor, x, y, x - y * (x / y).Floor as real)
  {
    assert x / y * y == x;
    Left(x, y, x / y, (x / y).Floor);
  }

  lemma Left(x: real, y: real, q: real, k: int)
    requires y != 0.0 && q * y == x && k as real <= q < k as real + 1.0
    ensures IsRemainder(k, x, y, x - y * k as real)
  {
    var kr, part := k as real, q - k as real;
    var z := x - y * kr;
    Apart(q, kr, y);
    assert z == part * y;
    PartOf(part, y, z);
    assert x == kr * y + z;
  }

  lemma Apart(q: real, k: real, y: real)
    ensures (q - k) * y == q * y - y * k && k * y == y * k
  {
  }

  lemma PartOf(part: real, y: real, z: real)
    requires 0.0 <= part < 1.0 && z == part * y
    ensures y > 0.0 ==> 0.0 <= z < y
    ensures y < 0.0 ==> y < z <= 0.0
  {
    if y > 0.0 { assert (1.0 - part) * y > 0.0; }
    if y < 0.0 { assert (1.0 - part) * (0.0 - y) > 0.0 && part * (0.0 - y) >= 0.0; }
  }

  lemma SumsOnNums(x: Num, y: Num)
    ensures ArithmeticLaw(Plus, x, y, Add(x, y)) && ArithmeticLaw(Minus, x, y, Sub(x, y))
  {
  }

  lemma ProductOnNums(x: Num, y: Num)
    ensures ArithmeticLaw(Times, x, y, Mul(x, y))
  {
  }

  lemma QuotientOnNums(x: Num, y: Num)
    ensures ArithmeticLaw(Over, x, y, Div(x, y))
  {
    if x.Fin? && y.Fin? && y.v != 0.0 { assert x.v / y.v * y.v == x.v; }
  }

  lemma RemainderOnNums(x: Num, y: Num)
    ensures ArithmeticLaw(Percent, x, y, Mod(x, y))
  {
    if x.Fin? && y.Fin? && y.v != 0.0 {
      var k := (x.v / y.v).Floor;
      FloorLeavesRemainder(x.v, y.v);
      assert Mod(x, y) == Fin(x.v - y.v * k as real);
      hide IsRemainder, Mod;
      assert IsRemainder(k, x.v, y.v, Mod(x, y).v);
    }
  }

  lemma NumsMapped(f: (Num, Num) -> Num, a: Value, b: Value, size: nat, i: nat)
    requires HasLength(a, size) && HasLength(b, size) && SpeaksOf(a, i) && SpeaksOf(b, i)
    ensures var r := MapNums(f, Numeric(a), Numeric(b), size);
      Spread(a, b, r, size) && (r.Scalar? || r.Cells?) && SpeaksOf(r, i) && NumberAt(r, i) == f(NumberAt(a, i), NumberAt(b, i))
  {
    NumericShows(a, i);
    NumericShows(b, i);
  }

  /** + - * / % at every bar, whatever kind of value the parts are. */
  lemma ArithmeticMeans(c: Context, op: BinaryOp, l: Node, r: Node, i: nat)
    requires c.Aligned() && IsArithmetic(op) && Eval(c, l).Ok? && Eval(c, r).Ok?
    requires SpeaksOf(Eval(c, l).value, i) && SpeaksOf(Eval(c, r).value, i)
    ensures var a, b, whole := Eval(c, l).value, Eval(c, r).value, Eval(c, Binary(op, l, r));
      && whole.Ok? && (whole.value.Scalar? || whole.value.Cells?) && Spread(a, b, whole.value, c.size)
      && SpeaksOf(whole.value, i) && ArithmeticLaw(op, NumberAt(a, i), NumberAt(b, i), NumberAt(whole.value, i))
  {
    var a, b := Eval(c, l).value, Eval(c, r).value;
    assert Eval(c, Binary(op, l, r)) == Ok(EvalBinary(op, a, b, c.size));
    hide Eval, MapNums, Numeric, ArithmeticLaw, Spread, NumberAt;
    SumsOnNums(NumberAt(a, i), NumberAt(b, i));
    ProductOnNums(NumberAt(a, i), NumberAt(b, i));
    QuotientOnNums(NumberAt(a, i), NumberAt(b, i));
    RemainderOnNums(NumberAt(a, i), NumberAt(b, i));
    match op {
      case Plus => NumsMapped(Add, a, b, c.size, i);
      case Minus => NumsMapped(Sub, a, b, c.size, i);
      case Times => NumsMapped(Mul, a, b, c.size, i);
      case Over => NumsMapped(Div, a, b, c.size, i);
      case _ => NumsMapped(Mod, a, b, c.size, i);
    }
  }

  // --- comparison ---------------------------------------------------------------

  predicate IsComparison(op: BinaryOp) {
    op.Less? || op.LessEqual? || op.Greater? || op.GreaterEqual? || op.Same? || op.Different?
  }

  predicate RealOrder(op: BinaryOp, x: real, y: real) {
    match op
    case Less => x < y
    case LessEqual => x <= y
    case Greater => x > y
    case GreaterEqual => x >= y
    case Same => x == y
    case Different => x != y
    case _ => false
  }

  /** Minus infinity is below every number and plus infinity above. */
  function Rank(a: Num): int {
    if a.NegInf? then -1 else if a.PosInf? then 1 else 0
  }

  predicate ComparisonLaw(op: BinaryOp, x: Num, y: Num, truth: bool) {
    if x.NaN? || y.NaN? then truth <==> op.Different?
    else if x.Fin? && y.Fin? then truth <==> RealOrder(op, x.v, y.v)
    else truth <==> RealOrder(op, Rank(x) as real, Rank(y) as real)
  }

  lemma TestsMapped(f: (Num, Num) -> bool, a: Value, b: Value, size: nat, i: nat)
    requires HasLength(a, size) && HasLength(b, size) && SpeaksOf(a, i) && SpeaksOf(b, i)
    ensures var r := MapTests(f, Numeric(a), Numeric(b), size);
      Spread(a, b, r, size) && (r.Flag? || r.Mask?) && SpeaksOf(r, i) && (TruthAt(r, i) <==> f(NumberAt(a, i), NumberAt(b, i)))
  {
    NumericShows(a, i);
    NumericShows(b, i);
  }

  lemma ComparisonOnNums(x: Num, y: Num)
    ensures ComparisonLaw(Less, x, y, Lt(x, y)) && ComparisonLaw(LessEqual, x, y, Le(x, y))
    ensures ComparisonLaw(Greater, x, y, Lt(y, x)) && ComparisonLaw(GreaterEqual, x, y, Le(y, x))
    ensures ComparisonLaw(Same, x, y, Eq(x, y)) && ComparisonLaw(Different, x, y, !Eq(x, y))
  {
  }

  /** < <= > >= == != at every bar: the order of the reals on numbers, and on a missing cell false but for !=. */
  lemma ComparisonMeans(c: Context, op: BinaryOp, l: Node, r: Node, i: nat)
    requires c.Aligned() && IsComparison(op) && Eval(c, l).Ok? && Eval(c, r).Ok?
    requires SpeaksOf(Eval(c, l).value, i) && SpeaksOf(Eval(c, r).value, i)
    ensures var a, b, whole := Eval(c, l).value, Eval(c, r).value, Eval(c, Binary(op, l, r));
      && whole.Ok? && (whole.value.Flag? || whole.value.Mask?) && Spread(a, b, whole.value, c.size)
      && SpeaksOf(whole.value, i) && ComparisonLaw(op, NumberAt(a, i), NumberAt(b, i), TruthAt(whole.value, i))
  {
    var a, b := Eval(c, l).value, Eval(c, r).value;
    assert Eval(c, Binary(op, l, r)) == Ok(EvalBinary(op, a, b, c.size));
    hide Eval, MapTests, Numeric, ComparisonLaw, Spread, NumberAt;
    ComparisonOnNums(NumberAt(a, i), NumberAt(b, i));
    match op {
      case Less => TestsMapped(Lt, a, b, c.size, i);
      case LessEqual => TestsMapped(Le, a, b, c.size, i);
      case Greater => TestsMapped((x, y) => Lt(y, x), a, b, c.size, i);
      case GreaterEqual => TestsMapped((x, y) => Le(y, x), a, b, c.size, i);
      case Same => TestsMapped(Eq, a, b, c.size, i);
      case _ => TestsMapped((x, y) => !Eq(x, y), a, b, c.size, i);
    }
  }

  /** The first part that fails decides, for every operator. */
  lemma FailuresPassOn(c: Context, op: BinaryOp, l: Node, r: Node)
    requires c.Aligned() && (Eval(c, l).Err? || Eval(c, r).Err?)
    ensures Eval(c, Binary(op, l, r)) == if Eval(c, l).Err? then Eval(c, l) else Eval(c, r)
  {
  }

  // --- one argument, and two ------------------------------------------------------

  /** -x at every bar. */
  lemma MinusMeans(c: Context, l: Node, i: nat)
    requires c.Aligned() && Eval(c, l).Ok? && SpeaksOf(Eval(c, l).value, i)
    ensures var a, whole := Eval(c, l).value, Eval(c, Unary(Negate, l));
      && whole.Ok? && Spread(a, a, whole.value, c.size) && SpeaksOf(whole.value, i)
      && NumberAt(whole.value, i) == match NumberAt(a, i)
         case NaN => NaN case PosInf => NegInf case NegInf => PosInf case Fin(x) => Fin(0.0 - x)
  {
    var a := Eval(c, l).value;
    assert Eval(c, Unary(Negate, l)) == Ok(EvalUnary(Negate, a, c.size));
    hide Eval;
    NumericShows(a, i);
  }

  /** abs(x) at every bar. */
  lemma AbsMeans(c: Context, l: Node, i: nat)
    requires c.Aligned() && Eval(c, l).Ok? && SpeaksOf(Eval(c, l).value, i)
    ensures var a, whole := Eval(c, l).value, Eval(c, Call("abs", [l]));
      && whole.Ok? && Spread(a, a, whole.value, c.size) && SpeaksOf(whole.value, i)
      && NumberAt(whole.value, i) == match NumberAt(a, i)
         case NaN => NaN case PosInf => PosInf case NegInf => PosInf case Fin(x) => Fin(if x >= 0.0 then x else 0.0 - x)
  {
    var a := Eval(c, l).value;
    assert EvalAll(c, [l]) == Ok([a]) by { assert [l][1..] == []; assert [a] + [] == [a]; }
    assert Eval(c, Call("abs", [l])) == Ok(ApplyAbs(a, c.size));
    hide Eval;
    NumericShows(a, i);
  }

  /** One of the two, no less (or no more) than either; missing if one of them is. */
  predicate PickLaw(largest: bool, x: Num, y: Num, z: Num) {
    if x.NaN? || y.NaN? then z.NaN?
    else
      && (z == x || z == y)
      && (x.Fin? && y.Fin? ==> z.Fin? && if largest then z.v >= x.v && z.v >= y.v else z.v <= x.v && z.v <= y.v)
      && (Rank(x) != Rank(y) ==> if largest then Rank(z) >= Rank(x) && Rank(z) >= Rank(y) else Rank(z) <= Rank(x) && Rank(z) <= Rank(y))
  }

  lemma TwoArguments(c: Context, name: string, l: Node, r: Node)
    requires c.Aligned() && Eval(c, l).Ok? && Eval(c, r).Ok? && Arity(name) == Some((2, 2))
    ensures EvalAll(c, [l, r]) == Ok([Eval(c, l).value, Eval(c, r).value])
    ensures Eval(c, Call(name, [l, r])) == Apply(c, name, [Eval(c, l).value, Eval(c, r).value])
  {
    BothEvaluated(c, l, r);
  }

  lemma PicksOnNums(x: Num, y: Num)
    ensures PickLaw(true, x, y, Max(x, y)) && PickLaw(false, x, y, Min(x, y))
  {
  }

  /** min(x, y) and max(x, y) at every bar. */
  lemma PicksMean(c: Context, largest: bool, l: Node, r: Node, i: nat)
    requires c.Aligned() && Eval(c, l).Ok? && Eval(c, r).Ok?
    requires SpeaksOf(Eval(c, l).value, i) && SpeaksOf(Eval(c, r).value, i)
    ensures var a, b, whole := Eval(c, l).value, Eval(c, r).value, Eval(c, Call(if largest then "max" else "min", [l, r]));
      && whole.Ok? && Spread(a, b, whole.value, c.size) && SpeaksOf(whole.value, i)
      && PickLaw(largest, NumberAt(a, i), NumberAt(b, i), NumberAt(whole.value, i))
  {
    var a, b := Eval(c, l).value, Eval(c, r).value;
    TwoArguments(c, if largest then "max" else "min", l, r);
    PicksOnNums(NumberAt(a, i), NumberAt(b, i));
    hide Eval, EvalAll, MapNums, Numeric, NumberAt, Spread, PickLaw, Max, Min;
    if largest { NumsMapped(Max, a, b, c.size, i); } else { NumsMapped(Min, a, b, c.size, i); }
  }

  // --- functions of a series and a length -------------------------------------------

  /** The cells a value gives a function: one a bar, truth values counting as one and zero. */
  predicate GivesCells(v: Value, cells: Cells) {
    IsArray(v) && |cells| == Length(v) && forall i: nat :: i < Length(v) ==> cells[i] == NumberAt(v, i)
  }

  lemma GivenCells(v: Value, fn: string, allowConstant: bool, size: nat, cells: Cells)
    requires GivesCells(v, cells)
    ensures SeriesArg(v, fn, allowConstant, size) == Ok(cells)
  {
    forall i: nat | i < Length(v) ensures Numeric(v).cells[i] == cells[i] { NumericShows(v, i); }
    assert Numeric(v).cells == cells;
  }

  /** A length is a single whole number from 1 to 2,000,000, and every other argument in its place is refused. */
  lemma LengthsMean(v: Value, fn: string, n: nat)
    ensures LengthArg(v, fn) == Ok(n) <==> !IsArray(v) && NumberAt(v, 0) == Fin(n as real) && 1 <= n <= 2_000_000
  {
  }

  /** What a named function of a series and a length gives. */
  function Named(name: string, std: Cells -> Num, cells: Cells, n: nat): Option<Value>
    requires n >= 1
  {
    match name
    case "sma" => Some(Cells(Sma(cells, n)))
    case "ema" => Some(Cells(Smooth(Exponential, cells, n)))
    case "rsi" => Some(Cells(Rsi(cells, n)))
    case "highest" => Some(Cells(Highest(cells, n)))
    case "lowest" => Some(Cells(Lowest(cells, n)))
    case "stdev" => Some(Cells(Roll(std, cells, n)))
    case "shift" => Some(Cells(Shift(cells, n)))
    case "rising" => Some(Mask(Monotonic(cells, n, true)))
    case "falling" => Some(Mask(Monotonic(cells, n, false)))
    case _ => None
  }

  lemma NamedTakesLength(name: string, std: Cells -> Num, cells: Cells, n: nat)
    requires n >= 1
    ensures Named(name, std, cells, n).Some? ==>
      && Arity(name).Some? && Arity(name).value.1 == 2 && Arity(name).value.0 <= 2 && !TakesPair(name) && name != "abs"
      && Windowed(name, std, cells, n) == Named(name, std, cells, n).value
    ensures name in {"rsi", "shift", "rising", "falling"} ==> Arity(name) == Some((1, 2))
  {
    hide Sma, Smooth, Rsi, Highest, Lowest, Roll, Shift, Monotonic;
  }

  /** Each named function, called on a series and a length. */
  lemma NamesMean(c: Context, name: string, l: Node, r: Node, cells: Cells, n: nat)
    requires c.Aligned() && Eval(c, l).Ok? && Eval(c, r).Ok? && GivesCells(Eval(c, l).value, cells)
    requires !IsArray(Eval(c, r).value) && NumberAt(Eval(c, r).value, 0) == Fin(n as real) && 1 <= n <= 2_000_000
    ensures Named(name, c.std, cells, n).Some? ==>
      Eval(c, Call(name, [l, r])) == Ok(Named(name, c.std, cells, n).value)
  {
    var a, b := Eval(c, l).value, Eval(c, r).value;
    if Named(name, c.std, cells, n).Some? {
      NamedTakesLength(name, c.std, cells, n);
      GivenCells(a, name, false, c.size, cells);
      LengthsMean(b, name, n);
      BothEvaluated(c, l, r);
      assert Eval(c, Call(name, [l, r])) == Apply(c, name, [a, b]);
      hide Eval, EvalAll, Named, Windowed, SeriesArg, LengthArg, NumberAt, GivesCells;
    }
  }

  lemma BothEvaluated(c: Context, l: Node, r: Node)
    requires c.Aligned() && Eval(c, l).Ok? && Eval(c, r).Ok?
    ensures EvalAll(c, [l, r]) == Ok([Eval(c, l).value, Eval(c, r).value])
  {
    var a, b := Eval(c, l).value, Eval(c, r).value;
    assert [l, r][1..] == [r] && [r][1..] == [];
    assert EvalAll(c, [r]) == Ok([b]) by { assert [b] + [] == [b]; }
    assert [a] + [b] == [a, b];
  }

  /** Without a length, rsi looks back 14 bars, and shift, rising and falling one. */
  lemma DefaultsMean(c: Context, name: string, l: Node, cells: Cells)
    requires c.Aligned() && Eval(c, l).Ok? && GivesCells(Eval(c, l).value, cells)
    requires name in {"rsi", "shift", "rising", "falling"}
    ensures var n := if name == "rsi" then 14 else 1;
      Eval(c, Call(name, [l])) == Ok(Named(name, c.std, cells, n).value)
  {
    var a, n := Eval(c, l).value, if name == "rsi" then 14 else 1;
    NamedTakesLength(name, c.std, cells, n);
    GivenCells(a, name, false, c.size, cells);
    LengthsMean(Scalar(Fin(n as real)), name, n);
    assert EvalAll(c, [l]) == Ok([a]) by { assert [l][1..] == []; assert [a] + [] == [a]; }
    assert Eval(c, Call(name, [l])) == Apply(c, name, [a]);
    hide Eval, EvalAll, Named, Windowed, SeriesArg, LengthArg, NumberAt, GivesCells;
  }

  /** crossover and crossunder of two series. */
  lemma CrossingsAreCalled(c: Context, l: Node, r: Node, a: Cells, b: Cells)
    requires c.Aligned() && Eval(c, l).Ok? && Eval(c, r).Ok?
    requires GivesCells(Eval(c, l).value, a) && GivesCells(Eval(c, r).value, b)
    ensures |a| == |b|
    ensures Eval(c, Call("crossover", [l, r])) == Ok(Mask(Crossover(a, b)))
    ensures Eval(c, Call("crossunder", [l, r])) == Ok(Mask(Crossunder(a, b)))
  {
    TwoArguments(c, "crossover", l, r);
    TwoArguments(c, "crossunder", l, r);
    GivenCells(Eval(c, l).value, "crossover", true, c.size, a);
    GivenCells(Eval(c, r).value, "crossover", true, c.size, b);
    GivenCells(Eval(c, l).value, "crossunder", true, c.size, a);
    GivenCells(Eval(c, r).value, "crossunder", true, c.size, b);
    hide Eval, EvalAll, SeriesArg, NumberAt, Crossover;
  }

  /** One of them may be a single number, which then stands at every bar. */
  lemma ConstantIsCrossed(v: Value, fn: string, size: nat)
    requires !IsArray(v) && size > 0
    ensures SeriesArg(v, fn, true, size) == Ok(seq(size, _ => NumberAt(v, 0))) && SeriesArg(v, fn, false, size) == Err(NotASeries(fn))
  {
    assert Constant(NumberAt(v, 0), size) == seq(size, _ => NumberAt(v, 0));
  }

  /** Which numbers of arguments a name takes: two, one or two, one, or none as it is no function. */
  lemma ArgumentsAreCounted(c: Context, name: string, args: seq<Node>)
    requires c.Aligned()
    ensures
      var two := name in {"sma", "ema", "highest", "lowest", "stdev", "crossover", "crossunder", "min", "max"};
      var upTo := name in {"rsi", "shift", "rising", "falling"};
      && (!two && !upTo && name != "abs" ==> Eval(c, Call(name, args)) == Err(UnknownFunction(name)))
      && (two && |args| != 2 ==> Eval(c, Call(name, args)) == Err(ArgumentCount(name)))
      && (upTo && |args| != 1 && |args| != 2 ==> Eval(c, Call(name, args)) == Err(ArgumentCount(name)))
      && (name == "abs" && |args| != 1 ==> Eval(c, Call(name, args)) == Err(ArgumentCount(name)))
  {
  }

  // --- names and truth ------------------------------------------------------------------

  /** A name is a series if there is one, else a parameter, else refused; a literal is its number. */
  lemma LeavesMean(c: Context, name: string, d: Decimal, b: bool)
    requires c.Aligned()
    ensures name in c.series ==> Eval(c, Identifier(name)) == Ok(Cells(c.series[name]))
    ensures name !in c.series && name in c.params ==> Eval(c, Identifier(name)) == Ok(Scalar(c.params[name]))
    ensures name !in c.series && name !in c.params ==> Eval(c, Identifier(name)) == Err(UnknownName(name))
    ensures d.Decimal? && d.Normal() ==> Eval(c, Number(d)) == Ok(Scalar(Fin(Natural(d.whole) as real + Fraction(d.frac))))
    ensures Eval(c, Number(Infinite)) == Ok(Scalar(PosInf)) && Eval(c, Boolean(b)) == Ok(Flag(b))
  {
  }

  /** A condition holds on a bar where its value is true or a number other than zero; a missing cell of a series
      does not hold, a missing constant does.
    */
  lemma TruthMeans(c: Context, n: Node, i: nat)
    requires c.Aligned() && c.size <= 2_000_000 && Eval(c, n).Ok? && i < c.size
    ensures SpeaksOf(Eval(c, n).value, i)
    ensures EvaluateBool(c, n).Ok? && (EvaluateBool(c, n).value[i] <==>
      NumberAt(Eval(c, n).value, i) != Fin(0.0) && (NumberAt(Eval(c, n).value, i).NaN? ==> Eval(c, n).value.Scalar?))
  {
    hide Eval;
    var v := Eval(c, n).value;
    if v.Cells? { assert Truthy(v).mask[i] == TruthyCell(v.cells[i]); }
  }

  /** More than 2,000,000 bars are refused. */
  lemma TooManyBarsAreRefused(c: Context, n: Node)
    requires c.Aligned() && c.size > 2_000_000
    ensures EvaluateBool(c, n) == Err(TooManyBars)
  {
  }
}
