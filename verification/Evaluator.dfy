/** Evaluating an expression over a bar series (packages/engine/quanta_engine/dsl/evaluator.py).

    The wall-clock budget is not modelled. np.std is a parameter of the context: causality holds
    whatever number it makes of a window.
  */
module Evaluator {
  import opened Wrappers
  import opened Num
  import opened Series
  import opened Syntax

  const MAX_BARS := 2_000_000

  /** What an expression evaluates to: a number, a truth value, or one of either for every bar. */
  datatype Value = Scalar(n: Num) | Flag(b: bool) | Cells(cells: Cells) | Mask(mask: seq<bool>)

  datatype EvalError =
    | TooManyBars | UnknownName(name: string) | UnknownFunction(name: string)
    | ArgumentCount(name: string) | NotASeries(name: string) | NoBars(name: string)
    | SeriesLength(name: string) | NotWhole(name: string) | BelowOne(name: string) | TooLarge(name: string)

  type Outcome = Result<Value, EvalError>

  /** What names and np.std stand for during one evaluation. */
  datatype Context = Context(size: nat, series: map<string, Cells>, params: map<string, Num>, std: Cells -> Num) {
    /** Every series has one cell a bar. */
    predicate Aligned() {
      forall name :: name in series ==> |series[name]| == size
    }
  }

  function Lookup(c: Context, name: string): Outcome {
    if name in c.series then Ok(Cells(c.series[name]))
    else if name in c.params then Ok(Scalar(c.params[name]))
    else Err(UnknownName(name))
  }

  predicate IsArray(v: Value) {
    v.Cells? || v.Mask?
  }

  /** _length: 0 for a single number or truth value. */
  function Length(v: Value): nat {
    match v
    case Cells(s) => |s|
    case Mask(m) => |m|
    case _ => 0
  }

  /** One entry a bar, or a single one for all bars. */
  predicate HasLength(v: Value, size: nat) {
    IsArray(v) ==> Length(v) == size
  }

  // --- coercions ----------------------------------------------------------

  function NumOf(b: bool): Num {
    if b then Fin(1.0) else ZERO
  }

  function NumsOf(mask: seq<bool>): Cells {
    seq(|mask|, i requires 0 <= i < |mask| => NumOf(mask[i]))
  }

  /** _numeric: truth values count as 1 and 0. */
  function Numeric(v: Value): (r: Value)
    ensures r.Scalar? || r.Cells?
    ensures Length(r) == Length(v) && IsArray(r) == IsArray(v)
  {
    match v
    case Flag(b) => Scalar(NumOf(b))
    case Mask(m) => Cells(NumsOf(m))
    case _ => v
  }

  predicate TruthyCell(a: Num) {
    !a.NaN? && a != ZERO
  }

  /** _truthy. A missing cell of a series is false; a missing scalar is bool(nan), which is true. */
  function Truthy(v: Value): (r: Value)
    ensures r.Flag? || r.Mask?
    ensures Length(r) == Length(v) && IsArray(r) == IsArray(v)
  {
    match v
    case Scalar(n) => Flag(n != ZERO)
    case Cells(s) => Mask(seq(|s|, i requires 0 <= i < |s| => TruthyCell(s[i])))
    case _ => v
  }

  /** _integer_arg. */
  function LengthArg(v: Value, fn: string): (r: Result<nat, EvalError>)
    ensures r.Ok? ==> 1 <= r.value <= MAX_BARS
  {
    match Numeric(v)
    case Cells(_) => Err(SeriesLength(fn))
    case Scalar(Fin(x)) =>
      if x != x.Floor as real then Err(NotWhole(fn))
      else if x < 1.0 then Err(BelowOne(fn))
      else if x > MAX_BARS as real then Err(TooLarge(fn))
      else Ok(x.Floor)
    case _ => Err(NotWhole(fn))
  }

  function Constant(a: Num, size: nat): Cells {
    seq(size, _ => a)
  }

  /** _as_series. */
  function SeriesArg(v: Value, fn: string, allowConstant: bool, size: nat): (r: Result<Cells, EvalError>)
    ensures r.Ok? && HasLength(v, size) ==> |r.value| == size
  {
    match Numeric(v)
    case Cells(s) => Ok(s)
    case Scalar(a) =>
      if !allowConstant then Err(NotASeries(fn))
      else if size == 0 then Err(NoBars(fn))
      else Ok(Constant(a, size))
  }

  // --- operators ----------------------------------------------------------

  function CellAt(v: Value, i: nat): Num
    requires v.Scalar? || (v.Cells? && i < |v.cells|)
  {
    if v.Scalar? then v.n else v.cells[i]
  }

  predicate TruthAt(v: Value, i: nat)
    requires v.Flag? || (v.Mask? && i < |v.mask|)
  {
    if v.Flag? then v.b else v.mask[i]
  }

  function MapNums(f: (Num, Num) -> Num, a: Value, b: Value, size: nat): (r: Value)
    requires (a.Scalar? || a.Cells?) && (b.Scalar? || b.Cells?) && HasLength(a, size) && HasLength(b, size)
    ensures HasLength(r, size)
  {
    if a.Scalar? && b.Scalar? then Scalar(f(a.n, b.n))
    else Cells(seq(size, i requires 0 <= i < size => f(CellAt(a, i), CellAt(b, i))))
  }

  function MapTests(f: (Num, Num) -> bool, a: Value, b: Value, size: nat): (r: Value)
    requires (a.Scalar? || a.Cells?) && (b.Scalar? || b.Cells?) && HasLength(a, size) && HasLength(b, size)
    ensures HasLength(r, size)
  {
    if a.Scalar? && b.Scalar? then Flag(f(a.n, b.n))
    else Mask(seq(size, i requires 0 <= i < size => f(CellAt(a, i), CellAt(b, i))))
  }

  function MapTruths(f: (bool, bool) -> bool, a: Value, b: Value, size: nat): (r: Value)
    requires (a.Flag? || a.Mask?) && (b.Flag? || b.Mask?) && HasLength(a, size) && HasLength(b, size)
    ensures HasLength(r, size)
  {
    if a.Flag? && b.Flag? then Flag(f(a.b, b.b))
    else Mask(seq(size, i requires 0 <= i < size => f(TruthAt(a, i), TruthAt(b, i))))
  }

  function EvalUnary(op: UnaryOp, operand: Value, size: nat): (r: Value)
    requires HasLength(operand, size)
    ensures HasLength(r, size)
  {
    match op
    case Negate => MapNums((a, _) => Neg(a), Numeric(operand), Scalar(ZERO), size)
    case Not => MapTruths((a, _) => !a, Truthy(operand), Flag(false), size)
  }

  function EvalBinary(op: BinaryOp, a: Value, b: Value, size: nat): (r: Value)
    requires HasLength(a, size) && HasLength(b, size)
    ensures HasLength(r, size)
  {
    match op
    case Both => MapTruths((x, y) => x && y, Truthy(a), Truthy(b), size)
    case Either => MapTruths((x, y) => x || y, Truthy(a), Truthy(b), size)
    case Plus => MapNums(Add, Numeric(a), Numeric(b), size)
    case Minus => MapNums(Sub, Numeric(a), Numeric(b), size)
    case Times => MapNums(Mul, Numeric(a), Numeric(b), size)
    case Over => MapNums(Div, Numeric(a), Numeric(b), size)
    case Percent => MapNums(Mod, Numeric(a), Numeric(b), size)
    case Less => MapTests(Lt, Numeric(a), Numeric(b), size)
    case LessEqual => MapTests(Le, Numeric(a), Numeric(b), size)
    case Greater => MapTests((x, y) => Lt(y, x), Numeric(a), Numeric(b), size)
    case GreaterEqual => MapTests((x, y) => Le(y, x), Numeric(a), Numeric(b), size)
    case Same => MapTests(Eq, Numeric(a), Numeric(b), size)
    case Different => MapTests((x, y) => !Eq(x, y), Numeric(a), Numeric(b), size)
  }

  // --- functions ----------------------------------------------------------

  /** How many arguments a whitelisted function takes. */
  function Arity(name: string): Option<(nat, nat)> {
    if name in {"sma", "ema", "highest", "lowest", "stdev", "crossover", "crossunder", "min", "max"} then Some((2, 2))
    else if name in {"rsi", "shift", "rising", "falling"} then Some((1, 2))
    else if name == "abs" then Some((1, 1))
    else None
  }

  function DefaultLength(name: string): Num {
    if name == "rsi" then Fin(14.0) else Fin(1.0)
  }

  /** The functions of a series and a length. */
  function Windowed(name: string, std: Cells -> Num, v: Cells, length: nat): (r: Value)
    requires length >= 1
    ensures HasLength(r, |v|)
  {
    if name == "sma" then Cells(Sma(v, length))
    else if name == "ema" then Cells(Smooth(Exponential, v, length))
    else if name == "rsi" then Cells(Rsi(v, length))
    else if name == "highest" then Cells(Highest(v, length))
    else if name == "lowest" then Cells(Lowest(v, length))
    else if name == "stdev" then Cells(Roll(std, v, length))
    else if name == "shift" then Cells(Shift(v, length))
    else if name == "rising" then Mask(Monotonic(v, length, true))
    else Mask(Monotonic(v, length, false))
  }

  function ApplyAbs(v: Value, size: nat): (r: Value)
    requires HasLength(v, size)
    ensures HasLength(r, size)
  {
    MapNums((a, _) => Abs(a), Numeric(v), Scalar(ZERO), size)
  }

  /** min, max, crossover and crossunder. */
  function ApplyPair(name: string, a: Value, b: Value, size: nat): (r: Outcome)
    requires HasLength(a, size) && HasLength(b, size)
    ensures r.Ok? ==> HasLength(r.value, size)
  {
    if name == "min" then Ok(MapNums(Min, Numeric(a), Numeric(b), size))
    else if name == "max" then Ok(MapNums(Max, Numeric(a), Numeric(b), size))
    else
      var s :- SeriesArg(a, name, true, size);
      var t :- SeriesArg(b, name, true, size);
      Ok(Mask(if name == "crossover" then Crossover(s, t) else Crossunder(s, t)))
  }

  /** The functions of a series and a length. */
  function ApplyWindowed(c: Context, name: string, a: Value, length: Value): (r: Outcome)
    requires HasLength(a, c.size)
    ensures r.Ok? ==> HasLength(r.value, c.size)
  {
    var v :- SeriesArg(a, name, false, c.size);
    var n :- LengthArg(length, name);
    Ok(Windowed(name, c.std, v, n))
  }

  predicate TakesPair(name: string) {
    name == "min" || name == "max" || name == "crossover" || name == "crossunder"
  }

  /** A handler applied to its evaluated arguments. */
  function Apply(c: Context, name: string, args: seq<Value>): (r: Outcome)
    requires Arity(name).Some? && Arity(name).value.0 <= |args| <= Arity(name).value.1
    requires forall k :: 0 <= k < |args| ==> HasLength(args[k], c.size)
    ensures r.Ok? ==> HasLength(r.value, c.size)
  {
    if name == "abs" then Ok(ApplyAbs(args[0], c.size))
    else if TakesPair(name) then ApplyPair(name, args[0], args[1], c.size)
    else ApplyWindowed(c, name, args[0], if |args| > 1 then args[1] else Scalar(DefaultLength(name)))
  }

  // --- the walk -----------------------------------------------------------

  function Eval(c: Context, n: Node): (r: Outcome)
    requires c.Aligned()
    ensures r.Ok? ==> HasLength(r.value, c.size)
    decreases n, 0
  {
    match n
    case Number(d) => Ok(Scalar(if d.Infinite? then PosInf else Fin(DecimalValue(d))))
    case Boolean(b) => Ok(Flag(b))
    case Identifier(name) => Lookup(c, name)
    case Unary(op, x) =>
      var operand :- Eval(c, x);
      Ok(EvalUnary(op, operand, c.size))
    case Binary(op, l, r) =>
      var left :- Eval(c, l);
      var right :- Eval(c, r);
      Ok(EvalBinary(op, left, right, c.size))
    case Call(name, args) =>
      if Arity(name).None? then Err(UnknownFunction(name))
      else if !(Arity(name).value.0 <= |args| <= Arity(name).value.1) then Err(ArgumentCount(name))
      else
        var values :- EvalAll(c, args);
        Apply(c, name, values)
  }

  function EvalAll(c: Context, ns: seq<Node>): (r: Result<seq<Value>, EvalError>)
    requires c.Aligned()
    ensures r.Ok? ==> |r.value| == |ns| && forall k :: 0 <= k < |ns| ==> HasLength(r.value[k], c.size)
    decreases ns, 1
  {
    if |ns| == 0 then Ok([])
    else
      var first :- Eval(c, ns[0]);
      var rest :- EvalAll(c, ns[1..]);
      Ok([first] + rest)
  }

  function Evaluate(c: Context, n: Node): Outcome
    requires c.Aligned()
  {
    if c.size > MAX_BARS then Err(TooManyBars) else Eval(c, n)
  }

  /** evaluate_bool: a truth value for every bar. */
  function EvaluateBool(c: Context, n: Node): (r: Result<seq<bool>, EvalError>)
    requires c.Aligned()
    ensures r.Ok? ==> |r.value| == c.size
  {
    var value :- Evaluate(c, n);
    var truth := Truthy(value);
    Ok(if truth.Mask? then truth.mask else seq(c.size, _ => truth.b))
  }

  /** A connective of conditions holds on exactly the bars where its parts say so, whether a part is one truth
      value, one a bar, or numbers read as truth values; a part that fails makes it fail alike, the left first.
    */
  lemma ConnectivesHoldBarByBar(c: Context, l: Node, r: Node)
    requires c.Aligned() && c.size <= MAX_BARS
    ensures var x, y := EvaluateBool(c, l), EvaluateBool(c, r);
      var both, either, not := EvaluateBool(c, Binary(Both, l, r)), EvaluateBool(c, Binary(Either, l, r)), EvaluateBool(c, Unary(Not, l));
      && (x.Err? ==> both == x && either == x && not == x)
      && (x.Ok? && y.Err? ==> both == y && either == y)
      && (x.Ok? ==> not.Ok? && forall i :: 0 <= i < c.size ==> not.value[i] == !x.value[i])
      && (x.Ok? && y.Ok? ==>
            && both.Ok? && either.Ok?
            && forall i :: 0 <= i < c.size ==>
                 both.value[i] == (x.value[i] && y.value[i]) && either.value[i] == (x.value[i] || y.value[i]))
  {
    var a, b := Eval(c, l), Eval(c, r);
    BoolIsEachTruth(c, l);
    BoolIsEachTruth(c, r);
    BoolIsEachTruth(c, Unary(Not, l));
    BoolIsEachTruth(c, Binary(Both, l, r));
    BoolIsEachTruth(c, Binary(Either, l, r));
    hide EvaluateBool, EvalUnary, EvalBinary, EachTruth;
    if a.Ok? { NotEachTruth(a.value, c.size); }
    if a.Ok? && b.Ok? { BothEachTruth(a.value, b.value, c.size); }
  }

  /** The truth of a value on every bar. */
  function EachTruth(v: Value, size: nat): (r: seq<bool>)
    requires HasLength(v, size)
    ensures |r| == size
  {
    if Truthy(v).Mask? then Truthy(v).mask else seq(size, _ => Truthy(v).b)
  }

  lemma BoolIsEachTruth(c: Context, n: Node)
    requires c.Aligned() && c.size <= MAX_BARS
    ensures var v := Eval(c, n);
      EvaluateBool(c, n) == if v.Err? then Err(v.error) else Ok(EachTruth(v.value, c.size))
  {
    hide Eval, Truthy;
  }

  lemma NotEachTruth(a: Value, size: nat)
    requires HasLength(a, size)
    ensures var not := EvalUnary(Not, a, size);
      forall i :: 0 <= i < size ==> EachTruth(not, size)[i] == !EachTruth(a, size)[i]
  {
    TruthMapped((x, _) => !x, Truthy(a), Flag(false), size);
    TruthyTwice(Truthy(a));
  }

  lemma BothEachTruth(a: Value, b: Value, size: nat)
    requires HasLength(a, size) && HasLength(b, size)
    ensures var both, either := EvalBinary(Both, a, b, size), EvalBinary(Either, a, b, size);
      forall i :: 0 <= i < size ==>
        && EachTruth(both, size)[i] == (EachTruth(a, size)[i] && EachTruth(b, size)[i])
        && EachTruth(either, size)[i] == (EachTruth(a, size)[i] || EachTruth(b, size)[i])
  {
    TruthMapped((x, y) => x && y, Truthy(a), Truthy(b), size);
    TruthMapped((x, y) => x || y, Truthy(a), Truthy(b), size);
    TruthyTwice(Truthy(a));
    TruthyTwice(Truthy(b));
  }

  lemma TruthMapped(f: (bool, bool) -> bool, a: Value, b: Value, size: nat)
    requires (a.Flag? || a.Mask?) && (b.Flag? || b.Mask?) && HasLength(a, size) && HasLength(b, size)
    ensures forall i :: 0 <= i < size ==>
      EachTruth(MapTruths(f, a, b, size), size)[i] == f(EachTruth(a, size)[i], EachTruth(b, size)[i])
  {
    forall i | 0 <= i < size
      ensures EachTruth(MapTruths(f, a, b, size), size)[i] == f(EachTruth(a, size)[i], EachTruth(b, size)[i])
    {
      EachTruthAt(a, size, i);
      EachTruthAt(b, size, i);
      EachTruthAt(MapTruths(f, a, b, size), size, i);
    }
  }

  lemma EachTruthAt(v: Value, size: nat, i: nat)
    requires (v.Flag? || v.Mask?) && HasLength(v, size) && i < size
    ensures EachTruth(v, size)[i] == TruthAt(v, i)
  {
    TruthyTwice(v);
  }

  lemma TruthyTwice(v: Value)
    ensures v.Flag? || v.Mask? ==> Truthy(v) == v
  {
  }
}
