/** When each primitive holds, in real arithmetic over the cells it looks at
    (packages/engine/quanta_engine/discover/signals.py).
  */
module MaskMeaning {
  import opened Num
  import opened Series
  import opened Indicators
  import opened Primitives
  import opened Signals

  /** How many earlier bars a statement looks at. */
  function Lookback(p: Primitive): nat {
    match p
    case Slope(_, _) => 1
    case Turn(_, _) => 2
    case Extreme(_, _) => 19
    case LevelCross(_, _, _) => 1
    case PairCross(_, _, _) => 1
    case Spread(_, _, _) => 5
    case Divergence(_, _, _, _) => 20
    case _ => 0
  }

  /** The first bar on which it can hold. */
  function FirstBar(p: Primitive): nat {
    if p.Turn? then 3 else if p.Divergence? then 21 else Lookback(p)
  }

  predicate Present(data: Data, line: Line, n: nat) {
    line.key in data && |data[line.key]| == n
  }

  predicate AllPresent(data: Data, p: Primitive, n: nat) {
    match p
    case Slope(line, _) => Present(data, line, n)
    case Turn(line, _) => Present(data, line, n)
    case Extreme(line, _) => Present(data, line, n)
    case OnSide(line, _, _) => Present(data, line, n)
    case LevelCross(line, _, _) => Present(data, line, n)
    case Position(left, right, _) => Present(data, left, n) && Present(data, right, n)
    case PairCross(left, right, _) => Present(data, left, n) && Present(data, right, n)
    case Spread(left, right, _) => Present(data, left, n) && Present(data, right, n)
    case Stack(_, order) => |order| > 0 && forall line :: line in order ==> Present(data, line, n)
    case Divergence(price, other, _, _) => Present(data, price, n) && Present(data, other, n)
  }

  lemma CoveredIsPresent(data: Data, p: Primitive, n: nat)
    ensures Covers(data, p, n) <==> AllPresent(data, p, n)
  {
    var lines := p.Lines();
    if Covers(data, p, n) {
      forall line | line in lines ensures Present(data, line, n) {
        var k :| 0 <= k < |lines| && lines[k] == line;
      }
      if !p.Stack? { assert lines[0] in lines && lines[|lines| - 1] in lines; }
    }
    if AllPresent(data, p, n) {
      forall k | 0 <= k < |lines| ensures lines[k].key in data && |data[lines[k].key]| == n { assert lines[k] in lines; }
    }
  }

  /** The cells from `back` bars before i up to i are numbers. */
  predicate RealBack(v: Cells, i: nat, back: nat)
    requires back <= i < |v|
  {
    RealFrom(v, i - back, i + 1)
  }

  predicate LooksReal(p: Primitive, data: Data, n: nat, i: nat)
    requires AllPresent(data, p, n) && Lookback(p) <= i < n
  {
    match p
    case Slope(line, _) => RealBack(data[line.key], i, 1)
    case Turn(line, _) => RealBack(data[line.key], i, 2)
    case Extreme(line, _) => RealBack(data[line.key], i, 19)
    case OnSide(line, _, _) => RealBack(data[line.key], i, 0)
    case LevelCross(line, _, _) => RealBack(data[line.key], i, 1)
    case Position(left, right, _) => RealBack(data[left.key], i, 0) && RealBack(data[right.key], i, 0)
    case PairCross(left, right, _) => RealBack(data[left.key], i, 1) && RealBack(data[right.key], i, 1)
    case Spread(left, right, _) =>
      var a, b := data[left.key], data[right.key];
      a[i].Fin? && b[i].Fin? && a[i - 5].Fin? && b[i - 5].Fin?
    case Stack(_, order) => forall line :: line in order ==> RealBack(data[line.key], i, 0)
    case Divergence(price, other, _, _) => RealBack(data[price.key], i, 20) && RealBack(data[other.key], i, 20)
  }

  function Distance(x: real, y: real): real {
    if x < y then y - x else x - y
  }

  /** Below, or above, each of the 20 cells before. */
  predicate NewExtreme(v: Cells, i: nat, low: bool)
    requires 20 <= i < |v| && RealBack(v, i, 20)
  {
    forall k :: i - 20 <= k < i ==> if low then v[i].v < v[k].v else v[i].v > v[k].v
  }

  /** What the statement says, over the cells it looks at. */
  predicate Says(p: Primitive, data: Data, n: nat, i: nat)
    requires AllPresent(data, p, n) && FirstBar(p) <= i < n && LooksReal(p, data, n, i)
  {
    match p
    case Slope(line, rising) =>
      var v := data[line.key];
      if rising then v[i - 1].v < v[i].v else v[i - 1].v > v[i].v
    case Turn(line, up) =>
      var v := data[line.key];
      if up then v[i - 2].v > v[i - 1].v && v[i - 1].v < v[i].v else v[i - 2].v < v[i - 1].v && v[i - 1].v > v[i].v
    case Extreme(line, high) =>
      var v := data[line.key];
      forall k :: i - 19 <= k <= i ==> if high then v[k].v <= v[i].v else v[k].v >= v[i].v
    case OnSide(line, level, above) =>
      var v := data[line.key];
      if above then v[i].v > level else v[i].v < level
    case LevelCross(line, level, above) =>
      var v := data[line.key];
      if above then v[i - 1].v <= level && v[i].v > level else v[i - 1].v >= level && v[i].v < level
    case Position(left, right, above) =>
      var a, b := data[left.key], data[right.key];
      if above then a[i].v > b[i].v else a[i].v < b[i].v
    case PairCross(left, right, above) =>
      var a, b := data[left.key], data[right.key];
      if above then a[i - 1].v <= b[i - 1].v && a[i].v > b[i].v else a[i - 1].v >= b[i - 1].v && a[i].v < b[i].v
    case Spread(left, right, converging) =>
      var a, b := data[left.key], data[right.key];
      var now, before := Distance(a[i].v, b[i].v), Distance(a[i - 5].v, b[i - 5].v);
      if converging then now < before else now > before
    case Stack(_, order) =>
      forall k :: 0 <= k < |order| - 1 ==> Stacked(data, order[k], order[k + 1], i)
    case Divergence(price, other, hidden, bullish) =>
      var ofPrice, ofOther := NewExtreme(data[price.key], i, bullish), NewExtreme(data[other.key], i, bullish);
      if hidden then ofOther && !ofPrice else ofPrice && !ofOther
  }

  predicate Stacked(data: Data, upper: Line, lower: Line, i: nat) {
    && upper.key in data && lower.key in data && i < |data[upper.key]| && i < |data[lower.key]|
    && data[upper.key][i].Fin? && data[lower.key][i].Fin? && data[upper.key][i].v > data[lower.key][i].v
  }

  /** Numbers and missing cells, no infinite ones. */
  predicate Bounded(v: Cells) {
    forall k :: 0 <= k < |v| ==> v[k].Fin? || v[k].NaN?
  }

  predicate AllBounded(data: Data) {
    forall key :: key in data ==> Bounded(data[key])
  }

  // --- kind by kind -------------------------------------------------------------

  lemma StepMeans(v: Cells, i: nat)
    requires i < |v| && Bounded(v)
    ensures Rising(v, i) <==> i >= 1 && RealBack(v, i, 1) && v[i - 1].v < v[i].v
    ensures Falling(v, i) <==> i >= 1 && RealBack(v, i, 1) && v[i - 1].v > v[i].v
  {
    assert MonotonicCell(v, 0, true, i) && MonotonicCell(v, 0, false, i);
  }

  lemma TurnMeans(v: Cells, up: bool, i: nat)
    requires i < |v| && Bounded(v)
    ensures TurnCell(v, up, i) <==>
      && i >= 3 && RealBack(v, i, 2)
      && (if up then v[i - 2].v > v[i - 1].v && v[i - 1].v < v[i].v else v[i - 2].v < v[i - 1].v && v[i - 1].v > v[i].v)
  {
    StepMeans(v, i);
    if i >= 3 {
      var back := Rotate(v, 1);
      RotatedOne(v);
      StepMeans(back, i);
      hide Rotate, Rising, Falling;
    }
  }

  lemma RotatedOne(v: Cells)
    requires Bounded(v)
    ensures Bounded(Rotate(v, 1)) && forall k :: 1 <= k < |v| ==> Rotate(v, 1)[k] == v[k - 1]
  {
  }

  lemma WindowMeans(v: Cells, n: nat, i: nat)
    requires Bounded(v) && n >= 1 && n <= i + 1 <= |v|
    ensures var high, low := RollCell(FoldMax, v, n, i), RollCell(FoldMin, v, n, i);
      && (high.Fin? <==> RealBack(v, i, n - 1)) && (low.Fin? <==> RealBack(v, i, n - 1))
      && (RealBack(v, i, n - 1) ==>
            && (exists k :: i + 1 - n <= k <= i && v[k] == high) && (forall k :: i + 1 - n <= k <= i ==> v[k].v <= high.v)
            && (exists k :: i + 1 - n <= k <= i && v[k] == low) && (forall k :: i + 1 - n <= k <= i ==> low.v <= v[k].v))
  {
    ExtremesMean(v, n, i);
    assert Highest(v, n)[i] == RollCell(FoldMax, v, n, i) && Lowest(v, n)[i] == RollCell(FoldMin, v, n, i);
    hide RollCell, Highest, Lowest;
    if !RealBack(v, i, n - 1) {
      var k :| i + 1 - n <= k < i + 1 && !v[k].Fin?;
      assert v[k].NaN?;
    }
  }

  lemma ExtremeMeans(v: Cells, high: bool, i: nat)
    requires i < |v| && Bounded(v)
    ensures ExtremeCell(v, high, i) <==>
      && i >= 19 && RealBack(v, i, 19)
      && forall k :: i - 19 <= k <= i ==> if high then v[k].v <= v[i].v else v[k].v >= v[i].v
  {
    if i >= 19 {
      WindowMeans(v, 20, i);
      hide RollCell;
    }
  }

  lemma SpreadMeans(a: Cells, b: Cells, converging: bool, i: nat)
    requires i < |a| == |b| && Bounded(a) && Bounded(b)
    ensures SpreadCell(a, b, converging, i) <==>
      && i >= 5 && a[i].Fin? && b[i].Fin? && a[i - 5].Fin? && b[i - 5].Fin?
      && var now, before := Distance(a[i].v, b[i].v), Distance(a[i - 5].v, b[i - 5].v);
        if converging then now < before else now > before
  {
    if i >= 5 {
      RotatedFive(Gap(a, b), i);
      hide Rotate;
    }
  }

  lemma RotatedFive(v: Cells, i: nat)
    requires 5 <= i < |v|
    ensures Rotate(v, 5)[i] == v[i - 5]
  {
  }

  lemma CrossMeans(a: Cells, b: Cells, i: nat)
    requires i < |a| == |b| && Bounded(a) && Bounded(b)
    ensures CrossCell(a, b, i) <==>
      && i >= 1 && RealBack(a, i, 1) && RealBack(b, i, 1) && a[i - 1].v <= b[i - 1].v && a[i].v > b[i].v
  {
  }

  /** The extremes of the 20 bars before, and whether this bar passes them. */
  lemma BeforeMeans(v: Cells, i: nat)
    requires 21 <= i < |v| && Bounded(v) && v[i].Fin?
    ensures var high, low := Rotate(Highest(v, 20), 1)[i], Rotate(Lowest(v, 20), 1)[i];
      && (high.Fin? <==> RealBack(v, i, 20)) && (low.Fin? <==> RealBack(v, i, 20))
      && (RealBack(v, i, 20) ==> (Lt(high, v[i]) <==> NewExtreme(v, i, false)) && (Lt(v[i], low) <==> NewExtreme(v, i, true)))
  {
    hide Rotate, RollCell, Highest, Lowest, NewExtreme, Bounded, RealBack;
    var high, low := RollCell(FoldMax, v, 20, i - 1), RollCell(FoldMin, v, 20, i - 1);
    WindowMeans(v, 20, i - 1);
    WindowBefore(v, i);
    BackAgain(v, i);
    if RealBack(v, i, 20) {
      Passes(v, i, high.v, low.v);
    }
  }

  lemma BackAgain(v: Cells, i: nat)
    requires 20 <= i < |v| && v[i].Fin?
    ensures RealBack(v, i - 1, 19) <==> RealBack(v, i, 20)
  {
  }

  lemma WindowBefore(v: Cells, i: nat)
    requires 21 <= i < |v|
    ensures Rotate(Highest(v, 20), 1)[i] == RollCell(FoldMax, v, 20, i - 1)
    ensures Rotate(Lowest(v, 20), 1)[i] == RollCell(FoldMin, v, 20, i - 1)
  {
    RotatedAt(Highest(v, 20), i);
    RotatedAt(Lowest(v, 20), i);
    hide Rotate, RollCell;
  }

  lemma RotatedAt(v: Cells, i: nat)
    requires 1 <= i < |v|
    ensures Rotate(v, 1)[i] == v[i - 1]
  {
  }

  lemma Passes(v: Cells, i: nat, high: real, low: real)
    requires 21 <= i < |v| && RealBack(v, i, 20)
    requires (exists k :: i - 20 <= k < i && v[k] == Fin(high)) && (forall k :: i - 20 <= k < i ==> v[k].v <= high)
    requires (exists k :: i - 20 <= k < i && v[k] == Fin(low)) && (forall k :: i - 20 <= k < i ==> low <= v[k].v)
    ensures (high < v[i].v <==> NewExtreme(v, i, false)) && (v[i].v < low <==> NewExtreme(v, i, true))
  {
  }

  lemma DivergenceMeans(price: Cells, other: Cells, hidden: bool, bullish: bool, i: nat)
    requires i < |price| == |other| && Bounded(price) && Bounded(other)
    ensures DivergenceCell(price, other, hidden, bullish, i) <==>
      && i >= 21 && RealBack(price, i, 20) && RealBack(other, i, 20)
      && (if hidden then NewExtreme(other, i, bullish) && !NewExtreme(price, i, bullish)
          else NewExtreme(price, i, bullish) && !NewExtreme(other, i, bullish))
  {
    if i >= 21 && price[i].Fin? && other[i].Fin? {
      BeforeMeans(price, i);
      BeforeMeans(other, i);
      hide Rotate, Highest, Lowest, NewExtreme;
    }
  }

  lemma StackMeans(order: seq<Line>, data: Data, n: nat, i: nat)
    requires i < n && |order| > 0 && AllBounded(data)
    requires forall k :: 0 <= k < |order| ==> order[k].key in data && |data[order[k].key]| == n
    ensures Descending(ValuesAt(order, data, n, i)) <==>
      && (forall line :: line in order ==> data[line.key][i].Fin?)
      && forall k :: 0 <= k < |order| - 1 ==> Stacked(data, order[k], order[k + 1], i)
  {
    var values := ValuesAt(order, data, n, i);
    assert forall k :: 0 <= k < |order| ==> values[k] == data[order[k].key][i] && order[k] in order;
    forall k | 0 <= k < |order| - 1 && values[k].Fin? && values[k + 1].Fin?
      ensures Stacked(data, order[k], order[k + 1], i) <==> Lt(values[k + 1], values[k])
    {
    }
  }

  // --- the theorem --------------------------------------------------------------------

  /** On data without infinities, a primitive holds on a bar exactly when enough bars came before, every cell it
      looks at is a number, and those numbers are as it says.
    */
  lemma MasksMean(p: Primitive, data: Data, n: nat, i: nat)
    requires Covers(data, p, n) && i < n && AllBounded(data)
    ensures AllPresent(data, p, n)
    ensures Mask(p, data, n)[i] <==> FirstBar(p) <= i && LooksReal(p, data, n, i) && Says(p, data, n, i)
  {
    CoveredIsPresent(data, p, n);
    hide Rising, Falling, TurnCell, ExtremeCell, SpreadCell, DivergenceCell, CrossCell, Descending, NewExtreme, Distance, Covers;
    if |p.Lines()| == 1 && !p.Stack? { OneLineMeans(p, data, n, i); } else { LinesMean(p, data, n, i); }
  }

  lemma OneLineMeans(p: Primitive, data: Data, n: nat, i: nat)
    requires Covers(data, p, n) && AllPresent(data, p, n) && i < n && AllBounded(data)
    requires p.Slope? || p.Turn? || p.Extreme? || p.OnSide? || p.LevelCross?
    ensures Holds(p, data, n, i) <==> FirstBar(p) <= i && LooksReal(p, data, n, i) && Says(p, data, n, i)
  {
    hide Rising, Falling, TurnCell, ExtremeCell, CrossCell;
    match p {
      case Slope(line, _) => StepMeans(data[line.key], i);
      case Turn(line, up) => TurnMeans(data[line.key], up, i);
      case Extreme(line, high) => ExtremeMeans(data[line.key], high, i);
      case OnSide(_, _, _) =>
      case LevelCross(line, level, _) =>
        var v, flat := data[line.key], Constant(n, level);
        CrossMeans(v, flat, i);
        CrossMeans(flat, v, i);
    }
  }

  lemma LinesMean(p: Primitive, data: Data, n: nat, i: nat)
    requires Covers(data, p, n) && AllPresent(data, p, n) && i < n && AllBounded(data)
    requires p.Position? || p.PairCross? || p.Spread? || p.Stack? || p.Divergence?
    ensures Holds(p, data, n, i) <==> FirstBar(p) <= i && LooksReal(p, data, n, i) && Says(p, data, n, i)
  {
    hide SpreadCell, DivergenceCell, CrossCell, Descending, NewExtreme, Distance, Stacked;
    match p {
      case Position(_, _, _) =>
      case PairCross(left, right, _) =>
        CrossMeans(data[left.key], data[right.key], i);
        CrossMeans(data[right.key], data[left.key], i);
      case Spread(left, right, converging) => SpreadMeans(data[left.key], data[right.key], converging, i);
      case Stack(_, order) => StackCovered(p, data, n); StackMeans(order, data, n, i);
      case Divergence(price, other, hidden, bullish) =>
        DivergenceMeans(data[price.key], data[other.key], hidden, bullish, i);
    }
  }
}
