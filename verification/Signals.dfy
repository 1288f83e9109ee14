/** The bars on which a primitive holds (packages/engine/quanta_engine/discover/signals.py). */
module Signals {
  import opened Num
  import opened Series
  import opened Combinatorics
  import opened Primitives
  import opened Generation

  const EXTREME_LOOKBACK := 20
  const DIVERGENCE_LOOKBACK := 20
  const SPREAD_LOOKBACK := 5

  type Data = map<string, Cells>

  /** Every line of the statement has data, one cell a bar. */
  predicate Covers(data: Data, p: Primitive, n: nat) {
    && (forall k :: 0 <= k < |p.Lines()| ==> p.Lines()[k].key in data && |data[p.Lines()[k].key]| == n)
    && (p.Stack? ==> |p.order| > 0)
  }

  /** np.roll: cells move forward by k and those pushed off the end come round to the start. */
  function Rotate(v: Cells, k: nat): (r: Cells)
    ensures |r| == |v|
  {
    seq(|v|, i requires 0 <= i < |v| => v[(i - k) % |v|])
  }

  predicate Rising(v: Cells, i: nat)
    requires i < |v|
  {
    MonotonicCell(v, 1, true, i)
  }

  predicate Falling(v: Cells, i: nat)
    requires i < |v|
  {
    MonotonicCell(v, 1, false, i)
  }

  function Constant(n: nat, level: real): (r: Cells)
    ensures |r| == n
  {
    seq(n, _ => Fin(level))
  }

  function Gap(a: Cells, b: Cells): (r: Cells)
    requires |a| == |b|
    ensures |r| == |a|
  {
    seq(|a|, i requires 0 <= i < |a| => Abs(Sub(a[i], b[i])))
  }

  predicate TurnCell(v: Cells, up: bool, i: nat)
    requires i < |v|
  {
    && i >= 3 && v[i].Fin?
    && if up then Falling(Rotate(v, 1), i) && Rising(v, i) else Rising(Rotate(v, 1), i) && Falling(v, i)
  }

  predicate ExtremeCell(v: Cells, high: bool, i: nat)
    requires i < |v|
  {
    var reference := RollCell(if high then FoldMax else FoldMin, v, EXTREME_LOOKBACK, i);
    && v[i].Fin? && reference.Fin?
    && if high then Le(reference, v[i]) else Le(v[i], reference)
  }

  predicate SpreadCell(a: Cells, b: Cells, converging: bool, i: nat)
    requires i < |a| == |b|
  {
    var before := Rotate(Gap(a, b), SPREAD_LOOKBACK)[i];
    && i >= SPREAD_LOOKBACK && a[i].Fin? && b[i].Fin?
    && if converging then Lt(Gap(a, b)[i], before) else Lt(before, Gap(a, b)[i])
  }

  /** The loops that narrow an all-true mask: each value above the next, and every one a number. */
  predicate Descending(values: seq<Num>) {
    && (forall k :: 0 <= k < |values| - 1 ==> Lt(values[k + 1], values[k]))
    && (forall k :: 0 <= k < |values| ==> values[k].Fin?)
  }

  predicate DivergenceCell(price: Cells, other: Cells, hidden: bool, bullish: bool, i: nat)
    requires i < |price| == |other|
  {
    var n := DIVERGENCE_LOOKBACK;
    var priceHigh, otherHigh := Rotate(Highest(price, n), 1)[i], Rotate(Highest(other, n), 1)[i];
    var priceLow, otherLow := Rotate(Lowest(price, n), 1)[i], Rotate(Lowest(other, n), 1)[i];
    var priceNew := if bullish then Lt(price[i], priceLow) else Lt(priceHigh, price[i]);
    var otherNew := if bullish then Lt(other[i], otherLow) else Lt(otherHigh, other[i]);
    && i > n
    && (if hidden then !priceNew && otherNew else priceNew && !otherNew)
    && price[i].Fin? && other[i].Fin? && priceHigh.Fin? && otherHigh.Fin?
  }

  /** The mask of a primitive at bar i. */
  predicate Holds(p: Primitive, data: Data, n: nat, i: nat)
    requires Covers(data, p, n) && i < n
  {
    assert forall k :: 0 <= k < |p.Lines()| ==> p.Lines()[k].key in data;
    match p
    case Slope(line, rising) =>
      var v := data[p.Lines()[0].key];
      v[i].Fin? && if rising then Rising(v, i) else Falling(v, i)
    case Turn(line, up) => TurnCell(data[p.Lines()[0].key], up, i)
    case Extreme(line, high) => ExtremeCell(data[p.Lines()[0].key], high, i)
    case OnSide(line, level, above) =>
      var v := data[p.Lines()[0].key];
      v[i].Fin? && if above then Lt(Fin(level), v[i]) else Lt(v[i], Fin(level))
    case LevelCross(line, level, above) =>
      var v := data[p.Lines()[0].key];
      v[i].Fin? && if above then CrossCell(v, Constant(n, level), i) else CrossCell(Constant(n, level), v, i)
    case Position(left, right, above) =>
      var a, b := data[p.Lines()[0].key], data[p.Lines()[1].key];
      a[i].Fin? && b[i].Fin? && if above then Lt(b[i], a[i]) else Lt(a[i], b[i])
    case PairCross(left, right, above) =>
      var a, b := data[p.Lines()[0].key], data[p.Lines()[1].key];
      a[i].Fin? && b[i].Fin? && if above then CrossCell(a, b, i) else CrossCell(b, a, i)
    case Spread(left, right, converging) => SpreadCell(data[p.Lines()[0].key], data[p.Lines()[1].key], converging, i)
    case Stack(_, order) => Descending(ValuesAt(order, data, n, i))
    case Divergence(price, other, hidden, bullish) =>
      DivergenceCell(data[p.Lines()[0].key], data[p.Lines()[1].key], hidden, bullish, i)
  }

  function ValuesAt(order: seq<Line>, data: Data, n: nat, i: nat): (r: seq<Num>)
    requires i < n && forall k :: 0 <= k < |order| ==> order[k].key in data && |data[order[k].key]| == n
    ensures |r| == |order|
  {
    seq(|order|, k requires 0 <= k < |order| => data[order[k].key][i])
  }

  function Mask(p: Primitive, data: Data, n: nat): (r: seq<bool>)
    requires Covers(data, p, n)
    ensures |r| == n
  {
    seq(n, i requires 0 <= i < n => Holds(p, data, n, i))
  }

  // --- a subject has one answer -----------------------------------------------------

  /** A trigger and a filter on one subject that say the same. */
  predicate Implies(t: Primitive, f: Primitive) {
    || (t.Turn? && f.Slope? && t.up == f.rising)
    || (t.LevelCross? && f.OnSide? && t.above == f.above)
    || (t.PairCross? && f.Position? && t.above == f.above)
  }

  /** On any data, a filter on the trigger's own subject either follows from the trigger or excludes it. */
  lemma TriggerSettlesSubject(t: Primitive, f: Primitive, data: Data, n: nat, i: nat)
    requires t.IsTrigger() && !f.IsTrigger() && t.Subject() == f.Subject()
    requires Covers(data, t, n) && Covers(data, f, n) && i < n
    ensures Implies(t, f) ==> (Holds(t, data, n, i) ==> Holds(f, data, n, i))
    ensures !Implies(t, f) ==> !(Holds(t, data, n, i) && Holds(f, data, n, i))
  {
    hide Rotate, RollCell, Highest, Lowest, Gap, Descending;
    if t.LevelCross? { assert Constant(n, t.level)[i] == Fin(t.level); }
  }

  lemma {:induction false} DescendingOrder(values: seq<Num>, j: nat, k: nat)
    requires Descending(values) && j < k < |values|
    ensures Lt(values[k], values[j])
  {
    if j + 1 < k {
      DescendingOrder(values, j, k - 1);
      LtTransitive(values[k], values[k - 1], values[j]);
    }
  }

  lemma {:induction false} FirstDifference<T>(a: seq<T>, b: seq<T>) returns (k: nat)
    requires |a| == |b| && a != b
    ensures k < |a| && a[k] != b[k] && a[..k] == b[..k]
  {
    assert a[..|a|] == a && b[..|b|] == b;
    k := 0;
    while a[k] == b[k]
      invariant k < |a| && a[..k] == b[..k]
      decreases |a| - k
    {
      assert a[..k + 1] == b[..k + 1];
      k := k + 1;
    }
  }

  /** A line of one ordering stands in the other, further on when they agree before it. */
  lemma FurtherOn(a: seq<Line>, b: seq<Line>, k: nat) returns (m: nat)
    requires multiset(a) == multiset(b) && k < |a| == |b| && a[k] != b[k] && a[..k] == b[..k] && Distinct(a)
    ensures k < m < |b| && b[m] == a[k]
  {
    assert a[k] in multiset(b);
    m :| 0 <= m < |b| && b[m] == a[k];
    forall j | 0 <= j < k ensures a[j] == b[j] { assert a[..k][j] == b[..k][j]; }
  }

  lemma DescendingDistinct(order: seq<Line>, data: Data, n: nat, i: nat)
    requires i < n && forall k :: 0 <= k < |order| ==> order[k].key in data && |data[order[k].key]| == n
    requires Descending(ValuesAt(order, data, n, i))
    ensures Distinct(order)
  {
    hide Descending;
    var values := ValuesAt(order, data, n, i);
    forall j, k | 0 <= j < k < |order| ensures order[j] != order[k] {
      DescendingOrder(values, j, k);
      LtIrreflexive(values[k], values[j]);
    }
  }

  lemma LtIrreflexive(a: Num, b: Num)
    requires Lt(a, b)
    ensures a != b && !Lt(b, a)
  {
  }

  /** No bar shows a group stacked in two orders. */
  lemma OneOrder(a: seq<Line>, b: seq<Line>, data: Data, n: nat, i: nat)
    requires i < n && a != b && multiset(a) == multiset(b)
    requires forall k :: 0 <= k < |a| ==> a[k].key in data && |data[a[k].key]| == n
    requires forall k :: 0 <= k < |b| ==> b[k].key in data && |data[b[k].key]| == n
    ensures !(Descending(ValuesAt(a, data, n, i)) && Descending(ValuesAt(b, data, n, i)))
  {
    hide Descending, Distinct;
    var x, y := ValuesAt(a, data, n, i), ValuesAt(b, data, n, i);
    assert |multiset(a)| == |a| && |multiset(b)| == |b|;
    if Descending(x) && Descending(y) {
      DescendingDistinct(a, data, n, i);
      DescendingDistinct(b, data, n, i);
      var k := FirstDifference(a, b);
      var m := FurtherOn(a, b, k);
      var l := FurtherOn(b, a, k);
      DescendingOrder(x, k, l);
      DescendingOrder(y, k, m);
      LtIrreflexive(x[l], x[k]);
    }
  }

  /** A line is known by its key. */
  predicate KeysIdentify(series: seq<Line>) {
    forall a, b :: a in series && b in series && a.key == b.key ==> a == b
  }

  lemma SupportedLines(p: Primitive, series: seq<Line>, line: Line)
    requires Supported(p, series) && line in p.Lines()
    ensures line in series
  {
    match p
    case Stack(scale, order) =>
      assert line in multiset(order);
      InMembers(series, scale, line);
    case Position(left, right, _) => PairLines(left, right, series);
    case PairCross(left, right, _) => PairLines(left, right, series);
    case Spread(left, right, _) => PairLines(left, right, series);
    case _ =>
  }

  lemma PairLines(left: Line, right: Line, series: seq<Line>)
    requires Comparable(left, right, series)
    ensures left in series && right in series
  {
    SelectedAreElements([left, right], MembersOf(series, left.scale));
    assert left in Elements([left, right]) && right in Elements([left, right]);
    InMembers(series, left.scale, left);
    InMembers(series, left.scale, right);
  }

  /** On any data, two different filters on one subject are never both true. */
  lemma FiltersExclude(f: Primitive, g: Primitive, series: seq<Line>, data: Data, n: nat, i: nat)
    requires KeysIdentify(series) && Supported(f, series) && Supported(g, series)
    requires !f.IsTrigger() && !g.IsTrigger() && f != g && f.Subject() == g.Subject()
    requires Covers(data, f, n) && Covers(data, g, n) && i < n
    ensures !(Holds(f, data, n, i) && Holds(g, data, n, i))
  {
    if f.Stack? {
      StackCovered(f, data, n);
      StackCovered(g, data, n);
      OneOrder(f.order, g.order, data, n, i);
    } else {
      SameLines(f, g, series);
      NeverBoth(f, g, data, n, i);
    }
    hide Supported, Covers, Holds;
  }

  lemma StackCovered(f: Primitive, data: Data, n: nat)
    requires f.Stack? && Covers(data, f, n)
    ensures forall k :: 0 <= k < |f.order| ==> f.order[k].key in data && |data[f.order[k].key]| == n
  {
    assert f.Lines() == f.order;
    forall k | 0 <= k < |f.order| ensures f.order[k].key in data && |data[f.order[k].key]| == n {
      assert f.Lines()[k].key in data;
    }
  }

  lemma SameLines(f: Primitive, g: Primitive, series: seq<Line>)
    requires KeysIdentify(series) && Supported(f, series) && Supported(g, series)
    requires !f.IsTrigger() && !g.IsTrigger() && !f.Stack? && f.Subject() == g.Subject()
    ensures f.Lines() == g.Lines()
  {
    hide Supported, KeysIdentify;
    forall k | 0 <= k < |f.Lines()| ensures k < |g.Lines()| && f.Lines()[k] == g.Lines()[k] {
      SupportedLines(f, series, f.Lines()[k]);
      SupportedLines(g, series, g.Lines()[k]);
      Identified(series, f.Lines()[k], g.Lines()[k]);
    }
  }

  lemma Identified(series: seq<Line>, a: Line, b: Line)
    requires KeysIdentify(series) && a in series && b in series && a.key == b.key
    ensures a == b
  {
  }

  lemma NeverBoth(f: Primitive, g: Primitive, data: Data, n: nat, i: nat)
    requires !f.IsTrigger() && !f.Stack? && !g.IsTrigger() && f != g && f.Subject() == g.Subject() && f.Lines() == g.Lines()
    requires Covers(data, f, n) && Covers(data, g, n) && i < n
    ensures !(Holds(f, data, n, i) && Holds(g, data, n, i))
  {
    hide Rotate, RollCell, Highest, Lowest, Gap, Descending;
  }
}
