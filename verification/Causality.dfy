/** No expression reads the future: evaluating on the first n bars gives the first n cells of
    evaluating on all of them, with the same success or the same error.
  */
module Causality {
  import opened Wrappers
  import opened Num
  import opened Series
  import opened Syntax
  import opened Evaluator

  // --- series -------------------------------------------------------------


  lemma {:induction false} CumulativePrefix(v: Cells, n: nat, k: nat)
    requires k <= n <= |v|
    ensures NanCumulative(v[..n], k) == NanCumulative(v, k)
  {
    if k > 0 { CumulativePrefix(v, n, k - 1); }
  }

  lemma SmaCausal(v: Cells, n: nat, length: nat)
    requires n <= |v| && length >= 1
    ensures Sma(v[..n], length) == Sma(v, length)[..n]
  {
    forall i | 0 <= i < n ensures SmaCell(v[..n], length, i) == SmaCell(v, length, i) {
      if length <= i + 1 {
        CumulativePrefix(v, n, i + 1);
        CumulativePrefix(v, n, i + 1 - length);
      }
    }
  }

  lemma {:induction false} SmoothCellPrefix(kind: Smoothing, v: Cells, n: nat, length: nat, i: nat)
    requires i < n <= |v| && length >= 1
    ensures SmoothCell(kind, v[..n], length, i) == SmoothCell(kind, v, length, i)
  {
    hide SmoothStep, Mean;
    if i + 1 == length {
      assert v[..n][..length] == v[..length];
    } else if i + 1 > length {
      SmoothCellPrefix(kind, v, n, length, i - 1);
    }
  }

  lemma SmoothCausal(kind: Smoothing, v: Cells, n: nat, length: nat)
    requires n <= |v| && length >= 1
    ensures Smooth(kind, v[..n], length) == Smooth(kind, v, length)[..n]
  {
    forall i | 0 <= i < n ensures SmoothCell(kind, v[..n], length, i) == SmoothCell(kind, v, length, i) {
      SmoothCellPrefix(kind, v, n, length, i);
    }
  }

  lemma RollCausal(f: Cells --> Num, v: Cells, n: nat, length: nat)
    requires n <= |v| && length >= 1 && forall w: Cells :: |w| > 0 ==> f.requires(w)
    ensures Roll(f, v[..n], length) == Roll(f, v, length)[..n]
  {
    forall i | 0 <= i < n ensures RollCell(f, v[..n], length, i) == RollCell(f, v, length, i) {
      if length <= i + 1 { assert Window(v[..n], length, i) == Window(v, length, i); }
    }
  }

  lemma ShiftCausal(v: Cells, n: nat, periods: nat)
    requires n <= |v|
    ensures Shift(v[..n], periods) == Shift(v, periods)[..n]
  {
  }

  lemma CrossoverCausal(a: Cells, b: Cells, n: nat)
    requires n <= |a| == |b|
    ensures |Crossover(a, b)| == |a| && Crossover(a[..n], b[..n]) == Crossover(a, b)[..n]
  {
  }

  lemma {:induction false} MonotonicCellPrefix(v: Cells, n: nat, steps: nat, increasing: bool, i: nat)
    requires i < n <= |v|
    ensures MonotonicCell(v[..n], steps, increasing, i) == MonotonicCell(v, steps, increasing, i)
  {
    if steps > 0 { MonotonicCellPrefix(v, n, steps - 1, increasing, i); }
  }

  lemma MonotonicCausal(v: Cells, n: nat, length: nat, increasing: bool)
    requires n <= |v|
    ensures Monotonic(v[..n], length, increasing) == Monotonic(v, length, increasing)[..n]
  {
    forall i | 0 <= i < n
      ensures MonotonicCell(v[..n], length, increasing, i) == MonotonicCell(v, length, increasing, i)
    {
      MonotonicCellPrefix(v, n, length, increasing, i);
    }
  }

  lemma ChangesPrefix(v: Cells, n: nat)
    requires 1 <= n <= |v|
    ensures |Gains(v)| == |Losses(v)| == |v| - 1
    ensures Gains(v[..n]) == Gains(v)[..n - 1] && Losses(v[..n]) == Losses(v)[..n - 1]
  {
    hide Max, Sub, Neg;
  }

  lemma RsiCellPrefix(v: Cells, n: nat, length: nat, i: nat)
    requires i < n <= |v| && length >= 1
    ensures RsiCell(v[..n], length, i) == RsiCell(v, length, i)
  {
    hide Gains, Losses, SmoothCell, RsiOf;
    if i > 0 {
      ChangesPrefix(v, n);
      var g, l := Gains(v), Losses(v);
      SmoothCellPrefix(Wilders, g, n - 1, length, i - 1);
      SmoothCellPrefix(Wilders, l, n - 1, length, i - 1);
      if n <= length { WarmUp(g, l, length, i - 1); }
    }
  }

  lemma WarmUp(g: Cells, l: Cells, length: nat, i: nat)
    requires i < |g| && i < |l| && i + 1 < length
    ensures RsiOf(SmoothCell(Wilders, g, length, i), SmoothCell(Wilders, l, length, i)) == NaN
  {
  }

  /** The size test of `rsi` is on the whole series, yet no bar can tell it from the prefix's own. */
  lemma RsiCausal(v: Cells, n: nat, length: nat)
    requires n <= |v| && length >= 1
    ensures Rsi(v[..n], length) == Rsi(v, length)[..n]
  {
    forall i | 0 <= i < n ensures RsiCell(v[..n], length, i) == RsiCell(v, length, i) {
      RsiCellPrefix(v, n, length, i);
    }
  }

  lemma TrueRangeCausal(high: Cells, low: Cells, close: Cells, n: nat)
    requires n <= |high| == |low| == |close|
    ensures TrueRange(high[..n], low[..n], close[..n]) == TrueRange(high, low, close)[..n]
  {
    hide Max, Sub, Abs;
  }

  lemma AtrCausal(high: Cells, low: Cells, close: Cells, n: nat, length: nat)
    requires n <= |high| == |low| == |close| && length >= 1
    ensures Atr(high[..n], low[..n], close[..n], length) == Atr(high, low, close, length)[..n]
  {
    TrueRangeCausal(high, low, close, n);
    SmoothCausal(Wilders, TrueRange(high, low, close), n, length);
  }

  // --- values -------------------------------------------------------------

  /** The first n bars of a value. */
  function Cut(v: Value, n: nat): Value
    requires IsArray(v) ==> n <= Length(v)
  {
    match v
    case Cells(s) => Cells(s[..n])
    case Mask(m) => Mask(m[..n])
    case _ => v
  }

  function CutOutcome(r: Outcome, size: nat, n: nat): Outcome
    requires n <= size && (r.Ok? ==> HasLength(r.value, size))
  {
    match r
    case Ok(v) => Ok(Cut(v, n))
    case Err(_) => r
  }

  function CutAll(vs: seq<Value>, size: nat, n: nat): (r: seq<Value>)
    requires n <= size && forall k :: 0 <= k < |vs| ==> HasLength(vs[k], size)
    ensures |r| == |vs|
    ensures forall k :: 0 <= k < |vs| ==> HasLength(vs[k], size) && r[k] == Cut(vs[k], n)
  {
    seq(|vs|, k requires 0 <= k < |vs| => assert HasLength(vs[k], size); Cut(vs[k], n))
  }

  function CutContext(c: Context, n: nat): (r: Context)
    requires c.Aligned() && n <= c.size
    ensures r.Aligned()
  {
    Context(n, map name | name in c.series :: c.series[name][..n], c.params, c.std)
  }

  lemma NumericCut(v: Value, n: nat)
    requires IsArray(v) ==> n <= Length(v)
    ensures Numeric(Cut(v, n)) == Cut(Numeric(v), n) && Truthy(Cut(v, n)) == Cut(Truthy(v), n)
  {
    match v {
      case Mask(m) => assert NumsOf(m[..n]) == NumsOf(m)[..n];
      case Cells(s) => assert Truthy(Cells(s[..n])).mask == Truthy(v).mask[..n];
      case _ =>
    }
  }

  lemma MapNumsCut(f: (Num, Num) -> Num, a: Value, b: Value, size: nat, n: nat)
    requires (a.Scalar? || a.Cells?) && (b.Scalar? || b.Cells?) && HasLength(a, size) && HasLength(b, size) && n <= size
    ensures MapNums(f, Cut(a, n), Cut(b, n), n) == Cut(MapNums(f, a, b, size), n)
  {
    var whole := MapNums(f, a, b, size);
    if whole.Cells? {
      assert forall i :: 0 <= i < n ==> CellAt(Cut(a, n), i) == CellAt(a, i) && CellAt(Cut(b, n), i) == CellAt(b, i);
      assert MapNums(f, Cut(a, n), Cut(b, n), n).cells == whole.cells[..n];
    }
  }

  lemma MapTestsCut(f: (Num, Num) -> bool, a: Value, b: Value, size: nat, n: nat)
    requires (a.Scalar? || a.Cells?) && (b.Scalar? || b.Cells?) && HasLength(a, size) && HasLength(b, size) && n <= size
    ensures MapTests(f, Cut(a, n), Cut(b, n), n) == Cut(MapTests(f, a, b, size), n)
  {
    var whole := MapTests(f, a, b, size);
    if whole.Mask? {
      assert forall i :: 0 <= i < n ==> CellAt(Cut(a, n), i) == CellAt(a, i) && CellAt(Cut(b, n), i) == CellAt(b, i);
      assert MapTests(f, Cut(a, n), Cut(b, n), n).mask == whole.mask[..n];
    }
  }

  lemma MapTruthsCut(f: (bool, bool) -> bool, a: Value, b: Value, size: nat, n: nat)
    requires (a.Flag? || a.Mask?) && (b.Flag? || b.Mask?) && HasLength(a, size) && HasLength(b, size) && n <= size
    ensures MapTruths(f, Cut(a, n), Cut(b, n), n) == Cut(MapTruths(f, a, b, size), n)
  {
    var whole := MapTruths(f, a, b, size);
    if whole.Mask? {
      assert forall i :: 0 <= i < n ==> TruthAt(Cut(a, n), i) == TruthAt(a, i) && TruthAt(Cut(b, n), i) == TruthAt(b, i);
      assert MapTruths(f, Cut(a, n), Cut(b, n), n).mask == whole.mask[..n];
    }
  }

  lemma UnaryCut(op: UnaryOp, v: Value, size: nat, n: nat)
    requires HasLength(v, size) && n <= size
    ensures EvalUnary(op, Cut(v, n), n) == Cut(EvalUnary(op, v, size), n)
  {
    hide MapNums, MapTruths, Numeric, Truthy;
    NumericCut(v, n);
    if op.Negate? { MapNumsCut((a, _) => Neg(a), Numeric(v), Scalar(ZERO), size, n); }
    else { MapTruthsCut((a, _) => !a, Truthy(v), Flag(false), size, n); }
  }

  lemma BinaryCut(op: BinaryOp, a: Value, b: Value, size: nat, n: nat)
    requires HasLength(a, size) && HasLength(b, size) && n <= size
    ensures EvalBinary(op, Cut(a, n), Cut(b, n), n) == Cut(EvalBinary(op, a, b, size), n)
  {
    hide MapNums, MapTests, MapTruths, Numeric, Truthy, Cut;
    NumericCut(a, n);
    NumericCut(b, n);
    var x, y := Numeric(a), Numeric(b);
    match op {
      case Both => MapTruthsCut((s, t) => s && t, Truthy(a), Truthy(b), size, n);
      case Either => MapTruthsCut((s, t) => s || t, Truthy(a), Truthy(b), size, n);
      case Plus => MapNumsCut(Add, x, y, size, n);
      case Minus => MapNumsCut(Sub, x, y, size, n);
      case Times => MapNumsCut(Mul, x, y, size, n);
      case Over => MapNumsCut(Div, x, y, size, n);
      case Percent => MapNumsCut(Mod, x, y, size, n);
      case Less => MapTestsCut(Lt, x, y, size, n);
      case LessEqual => MapTestsCut(Le, x, y, size, n);
      case Greater => MapTestsCut((s, t) => Lt(t, s), x, y, size, n);
      case GreaterEqual => MapTestsCut((s, t) => Le(t, s), x, y, size, n);
      case Same => MapTestsCut(Eq, x, y, size, n);
      case Different => MapTestsCut((s, t) => !Eq(s, t), x, y, size, n);
    }
  }

  lemma WindowedCut(name: string, std: Cells -> Num, v: Cells, n: nat, length: nat)
    requires n <= |v| && length >= 1
    ensures Windowed(name, std, v[..n], length) == Cut(Windowed(name, std, v, length), n)
  {
    hide Sma, Smooth, Rsi, Roll, Shift, Monotonic;
    if name == "sma" { SmaCausal(v, n, length); }
    else if name == "ema" { SmoothCausal(Exponential, v, n, length); }
    else if name == "rsi" { RsiCausal(v, n, length); }
    else if name == "highest" { RollCausal(FoldMax, v, n, length); }
    else if name == "lowest" { RollCausal(FoldMin, v, n, length); }
    else if name == "stdev" { RollCausal(std, v, n, length); }
    else if name == "shift" { ShiftCausal(v, n, length); }
    else { MonotonicCausal(v, n, length, name == "rising"); }
  }

  lemma SeriesArgCut(v: Value, fn: string, allowConstant: bool, size: nat, n: nat)
    requires HasLength(v, size) && 1 <= n <= size
    ensures var whole, part := SeriesArg(v, fn, allowConstant, size), SeriesArg(Cut(v, n), fn, allowConstant, n);
      if whole.Ok? then part == Ok(whole.value[..n]) else part == whole
  {
    NumericCut(v, n);
    var whole, part := SeriesArg(v, fn, allowConstant, size), SeriesArg(Cut(v, n), fn, allowConstant, n);
    if whole.Ok? { assert part.value == whole.value[..n]; }
  }

  lemma LengthArgCut(v: Value, fn: string, n: nat)
    requires IsArray(v) ==> n <= Length(v)
    ensures LengthArg(Cut(v, n), fn) == LengthArg(v, fn)
  {
  }

  lemma CrossCut(name: string, a: Value, b: Value, size: nat, n: nat)
    requires HasLength(a, size) && HasLength(b, size) && 1 <= n <= size && name != "min" && name != "max"
    ensures ApplyPair(name, Cut(a, n), Cut(b, n), n) == CutOutcome(ApplyPair(name, a, b, size), size, n)
  {
    hide Cut, HasLength, SeriesArg, Crossover;
    SeriesArgCut(a, name, true, size, n);
    SeriesArgCut(b, name, true, size, n);
    var s, t := SeriesArg(a, name, true, size), SeriesArg(b, name, true, size);
    if s.Ok? && t.Ok? {
      CrossoverCausal(s.value, t.value, n);
      CrossoverCausal(t.value, s.value, n);
      MaskCut(Crossover(s.value, t.value), n);
      MaskCut(Crossover(t.value, s.value), n);
    }
  }

  lemma MaskCut(m: seq<bool>, n: nat)
    requires n <= |m|
    ensures IsArray(Mask(m)) && Length(Mask(m)) == |m| && Cut(Mask(m), n) == Mask(m[..n])
  {
  }

  lemma PairCut(name: string, a: Value, b: Value, size: nat, n: nat)
    requires HasLength(a, size) && HasLength(b, size) && 1 <= n <= size
    ensures ApplyPair(name, Cut(a, n), Cut(b, n), n) == CutOutcome(ApplyPair(name, a, b, size), size, n)
  {
    if name == "min" || name == "max" {
      hide MapNums, Numeric;
      NumericCut(a, n);
      NumericCut(b, n);
      MapNumsCut(Min, Numeric(a), Numeric(b), size, n);
      MapNumsCut(Max, Numeric(a), Numeric(b), size, n);
    } else {
      hide ApplyPair;
      CrossCut(name, a, b, size, n);
    }
  }

  lemma ApplyCut(c: Context, name: string, args: seq<Value>, n: nat)
    requires c.Aligned() && Arity(name).Some? && Arity(name).value.0 <= |args| <= Arity(name).value.1
    requires forall k :: 0 <= k < |args| ==> HasLength(args[k], c.size)
    requires 1 <= n <= c.size
    ensures Apply(CutContext(c, n), name, CutAll(args, c.size, n)) == CutOutcome(Apply(c, name, args), c.size, n)
  {
    hide Windowed, MapNums, Numeric, ApplyPair, SeriesArg, LengthArg;
    if name == "abs" {
      NumericCut(args[0], n);
      MapNumsCut((a, _) => Abs(a), Numeric(args[0]), Scalar(ZERO), c.size, n);
    } else if TakesPair(name) {
      PairCut(name, args[0], args[1], c.size, n);
    } else {
      SeriesArgCut(args[0], name, false, c.size, n);
      var length := if |args| > 1 then args[1] else Scalar(DefaultLength(name));
      LengthArgCut(length, name, n);
      var v, m := SeriesArg(args[0], name, false, c.size), LengthArg(length, name);
      if v.Ok? && m.Ok? { WindowedCut(name, c.std, v.value, n, m.value); }
    }
  }

  // --- the theorem --------------------------------------------------------

  lemma {:induction false} EvalCausal(c: Context, node: Node, n: nat)
    requires c.Aligned() && 1 <= n <= c.size
    ensures Eval(CutContext(c, n), node) == CutOutcome(Eval(c, node), c.size, n)
    decreases node, 0
  {
    hide EvalUnary, EvalBinary, Apply;
    match node {
      case Unary(op, x) =>
        EvalCausal(c, x, n);
        var operand := Eval(c, x);
        if operand.Ok? { UnaryCut(op, operand.value, c.size, n); }
      case Binary(op, l, r) =>
        EvalCausal(c, l, n);
        EvalCausal(c, r, n);
        var left, right := Eval(c, l), Eval(c, r);
        if left.Ok? && right.Ok? { BinaryCut(op, left.value, right.value, c.size, n); }
      case Call(name, args) =>
        EvalAllCausal(c, args, n);
        var values := EvalAll(c, args);
        if values.Ok? && Arity(name).Some? && Arity(name).value.0 <= |args| <= Arity(name).value.1 {
          ApplyCut(c, name, values.value, n);
        }
      case _ =>
    }
  }

  lemma {:induction false} EvalAllCausal(c: Context, nodes: seq<Node>, n: nat)
    requires c.Aligned() && 1 <= n <= c.size
    ensures var whole, part := EvalAll(c, nodes), EvalAll(CutContext(c, n), nodes);
      if whole.Ok? then part == Ok(CutAll(whole.value, c.size, n)) else part == whole
    decreases nodes, 1
  {
    hide Eval;
    if |nodes| > 0 {
      EvalCausal(c, nodes[0], n);
      EvalAllCausal(c, nodes[1..], n);
      var whole := EvalAll(c, nodes);
      if whole.Ok? {
        var rest := EvalAll(c, nodes[1..]).value;
        assert CutAll(whole.value, c.size, n) == [Cut(whole.value[0], n)] + CutAll(rest, c.size, n);
      }
    }
  }

  /** A signal on the first n bars is the first n bars of the signal, whatever follows them. */
  lemma SignalIsCausal(c: Context, node: Node, n: nat)
    requires c.Aligned() && 1 <= n <= c.size <= MAX_BARS
    ensures var whole, part := EvaluateBool(c, node), EvaluateBool(CutContext(c, n), node);
      if whole.Ok? then part == Ok(whole.value[..n]) else part == whole
  {
    hide Eval, Truthy;
    EvalCausal(c, node, n);
    var whole, part := EvaluateBool(c, node), EvaluateBool(CutContext(c, n), node);
    if whole.Ok? {
      NumericCut(Eval(c, node).value, n);
      assert part.value == whole.value[..n];
    }
  }

  /** Two markets with the same first n bars give the same signals on them. */
  lemma SignalsCannotDiffer(c: Context, d: Context, node: Node, n: nat)
    requires c.Aligned() && d.Aligned() && 1 <= n <= c.size <= MAX_BARS && n <= d.size <= MAX_BARS
    requires CutContext(c, n) == CutContext(d, n)
    ensures var a, b := EvaluateBool(c, node), EvaluateBool(d, node);
      if a.Ok? then b.Ok? && a.value[..n] == b.value[..n] else a == b
  {
    SignalIsCausal(c, node, n);
    SignalIsCausal(d, node, n);
  }

  // --- missing data ---------------------------------------------------------

  /** A missing number reads as true exactly when it is a constant: a series cell that has not warmed up
      is false, but a constant such as 0/0 holds on every bar.
    */
  lemma MissingIsFalseForSeries(v: Value, i: nat)
    requires v.Scalar? || (v.Cells? && i < |v.cells|)
    requires CellAt(v, i).NaN?
    ensures TruthAt(Truthy(v), i) <==> v.Scalar?
  {
  }

  /** The expression 0/0 signals on every bar. */
  lemma ConstantGapSignalsEveryBar(c: Context, zero: Decimal)
    requires c.Aligned() && c.size <= MAX_BARS && zero.Decimal? && DecimalValue(zero) == 0.0
    ensures var r := EvaluateBool(c, Binary(Over, Number(zero), Number(zero)));
      r.Ok? && forall i :: 0 <= i < c.size ==> r.value[i]
  {
    assert Eval(c, Number(zero)) == Ok(Scalar(ZERO));
  }
}
