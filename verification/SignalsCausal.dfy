/** A mask never looks ahead, though its arrays wrap round, and never holds on a missing cell. */
module SignalsCausal {
  import opened Num
  import opened Series
  import opened Primitives
  import opened Signals

  /** The data of the first m bars. */
  function CutData(data: Data, m: nat): Data {
    map key | key in data && m <= |data[key]| :: data[key][..m]
  }

  lemma CutCovers(data: Data, p: Primitive, n: nat, m: nat)
    requires Covers(data, p, n) && m <= n
    ensures Covers(CutData(data, m), p, m)
    ensures forall k :: 0 <= k < |p.Lines()| ==> CutData(data, m)[p.Lines()[k].key] == data[p.Lines()[k].key][..m]
  {
  }

  lemma RotateAt(v: Cells, k: nat, i: nat)
    requires k <= i < |v|
    ensures Rotate(v, k)[i] == v[i - k]
  {
    assert (i - k) % |v| == i - k;
  }

  lemma OneStep(v: Cells, increasing: bool, i: nat)
    requires i < |v|
    ensures MonotonicCell(v, 1, increasing, i) == (i >= 1 && Moved(v[i - 1], v[i], increasing))
  {
  }

  lemma TurnAt(v: Cells, up: bool, i: nat)
    requires 3 <= i < |v|
    ensures TurnCell(v, up, i) == (v[i].Fin? && Moved(v[i - 2], v[i - 1], !up) && Moved(v[i - 1], v[i], up))
  {
    hide Rotate, MonotonicCell, Moved;
    RotateAt(v, 1, i);
    RotateAt(v, 1, i - 1);
    OneStep(v, up, i);
    OneStep(Rotate(v, 1), !up, i);
  }

  lemma TurnCausal(v: Cells, up: bool, m: nat, i: nat)
    requires i < m <= |v|
    ensures TurnCell(v[..m], up, i) == TurnCell(v, up, i)
  {
    hide Rotate, Moved;
    if i >= 3 {
      hide TurnCell;
      TurnAt(v, up, i);
      TurnAt(v[..m], up, i);
    }
  }

  lemma RollCellCausal(high: bool, v: Cells, m: nat, length: nat, i: nat)
    requires i < m <= |v| && length >= 1
    ensures var f := if high then FoldMax else FoldMin; RollCell(f, v[..m], length, i) == RollCell(f, v, length, i)
  {
    if length <= i + 1 { assert Window(v[..m], length, i) == Window(v, length, i); }
  }

  lemma SpreadCausal(a: Cells, b: Cells, converging: bool, m: nat, i: nat)
    requires i < m <= |a| == |b|
    ensures SpreadCell(a[..m], b[..m], converging, i) == SpreadCell(a, b, converging, i)
  {
    if i >= SPREAD_LOOKBACK {
      RotateAt(Gap(a, b), SPREAD_LOOKBACK, i);
      RotateAt(Gap(a[..m], b[..m]), SPREAD_LOOKBACK, i);
    }
    hide Rotate, Abs, Sub;
  }

  /** Yesterday's extreme of a window that has filled. */
  lemma ExtremeBefore(v: Cells, high: bool, i: nat)
    requires DIVERGENCE_LOOKBACK < i < |v|
    ensures Rotate(if high then Highest(v, DIVERGENCE_LOOKBACK) else Lowest(v, DIVERGENCE_LOOKBACK), 1)[i]
         == RollCell(if high then FoldMax else FoldMin, v, DIVERGENCE_LOOKBACK, i - 1)
  {
    RotateAt(if high then Highest(v, DIVERGENCE_LOOKBACK) else Lowest(v, DIVERGENCE_LOOKBACK), 1, i);
    hide Rotate, FoldMax, FoldMin;
  }

  lemma ExtremeBeforeCausal(v: Cells, high: bool, m: nat, i: nat)
    requires DIVERGENCE_LOOKBACK < i < m <= |v|
    ensures |Highest(v[..m], DIVERGENCE_LOOKBACK)| == |Lowest(v[..m], DIVERGENCE_LOOKBACK)| == m
    ensures |Highest(v, DIVERGENCE_LOOKBACK)| == |Lowest(v, DIVERGENCE_LOOKBACK)| == |v|
    ensures Rotate(if high then Highest(v[..m], DIVERGENCE_LOOKBACK) else Lowest(v[..m], DIVERGENCE_LOOKBACK), 1)[i]
         == Rotate(if high then Highest(v, DIVERGENCE_LOOKBACK) else Lowest(v, DIVERGENCE_LOOKBACK), 1)[i]
  {
    ExtremeBefore(v, high, i);
    ExtremeBefore(v[..m], high, i);
    RollCellCausal(high, v, m, DIVERGENCE_LOOKBACK, i - 1);
    hide Rotate, RollCell;
  }

  lemma DivergenceCausal(price: Cells, other: Cells, hidden: bool, bullish: bool, m: nat, i: nat)
    requires i < m <= |price| == |other|
    ensures DivergenceCell(price[..m], other[..m], hidden, bullish, i) == DivergenceCell(price, other, hidden, bullish, i)
  {
    if i > DIVERGENCE_LOOKBACK {
      ExtremeBeforeCausal(price, true, m, i);
      ExtremeBeforeCausal(price, false, m, i);
      ExtremeBeforeCausal(other, true, m, i);
      ExtremeBeforeCausal(other, false, m, i);
    }
    hide Rotate, Highest, Lowest;
  }

  lemma StackCausal(order: seq<Line>, data: Data, n: nat, m: nat, i: nat)
    requires i < m <= n && forall k :: 0 <= k < |order| ==> order[k].key in data && |data[order[k].key]| == n
    ensures forall k :: 0 <= k < |order| ==> order[k].key in CutData(data, m) && |CutData(data, m)[order[k].key]| == m
    ensures ValuesAt(order, CutData(data, m), m, i) == ValuesAt(order, data, n, i)
  {
  }

  lemma HoldsIsCausal(p: Primitive, data: Data, n: nat, m: nat, i: nat)
    requires Covers(data, p, n) && i < m <= n
    ensures Covers(CutData(data, m), p, m)
    ensures Holds(p, CutData(data, m), m, i) == Holds(p, data, n, i)
  {
    CutCovers(data, p, n, m);
    var cut := CutData(data, m);
    if p.Stack? {
      StackCovered(p, data, n);
      StackCausal(p.order, data, n, m, i);
    } else {
      var a := data[p.Lines()[0].key];
      assert cut[p.Lines()[0].key] == a[..m];
      if p.Slope? {
        OneStep(a, p.rising, i);
        OneStep(a[..m], p.rising, i);
      }
      if p.LevelCross? { assert Constant(m, p.level) == Constant(n, p.level)[..m]; }
      if p.Extreme? { RollCellCausal(p.high, a, m, EXTREME_LOOKBACK, i); }
      if p.Turn? { TurnCausal(a, p.up, m, i); }
      if |p.Lines()| == 2 {
        var b := data[p.Lines()[1].key];
        assert cut[p.Lines()[1].key] == b[..m];
        if p.Spread? { SpreadCausal(a, b, p.converging, m, i); }
        if p.Divergence? { DivergenceCausal(a, b, p.hidden, p.bullish, m, i); }
      }
    }
    hide TurnCell, RollCell, SpreadCell, DivergenceCell, Descending, CutData, ValuesAt, Covers, MonotonicCell;
  }

  /** No mask reads the future: the mask of the first m bars is the first m bars of the mask. */
  lemma MaskIsCausal(p: Primitive, data: Data, n: nat, m: nat)
    requires Covers(data, p, n) && m <= n
    ensures Covers(CutData(data, m), p, m) && Mask(p, CutData(data, m), m) == Mask(p, data, n)[..m]
  {
    hide Holds, Covers, CutData;
    CutCovers(data, p, n, m);
    forall i | 0 <= i < m ensures Holds(p, CutData(data, m), m, i) == Holds(p, data, n, i) {
      HoldsIsCausal(p, data, n, m, i);
    }
  }

  /** The bars a statement needs behind it before it can hold. */
  function WarmUp(p: Primitive): nat {
    match p
    case Slope(_, _) => 1
    case Turn(_, _) => 3
    case Extreme(_, _) => EXTREME_LOOKBACK - 1
    case LevelCross(_, _, _) => 1
    case PairCross(_, _, _) => 1
    case Spread(_, _, _) => SPREAD_LOOKBACK
    case Divergence(_, _, _, _) => DIVERGENCE_LOOKBACK + 1
    case _ => 0
  }

  /** A primitive holds only once it is warm, and only where every line it is about has a number. */
  lemma HoldsOnNumbers(p: Primitive, data: Data, n: nat, i: nat, k: nat)
    requires Covers(data, p, n) && i < n && Holds(p, data, n, i) && k < |p.Lines()|
    ensures i >= WarmUp(p) && data[p.Lines()[k].key][i].Fin?
  {
    hide Rotate, FoldMax, FoldMin, Highest, Lowest, Gap;
    if p.Stack? {
      StackCovered(p, data, n);
      assert ValuesAt(p.order, data, n, i)[k].Fin?;
    }
  }

  // --- divergences ----------------------------------------------------------------------

  function Flip(v: Cells): (r: Cells)
    ensures |r| == |v|
  {
    seq(|v|, i requires 0 <= i < |v| => Neg(v[i]))
  }

  predicate NoInfinity(v: Cells) {
    forall k :: 0 <= k < |v| ==> v[k].Fin? || v[k].NaN?
  }

  lemma {:induction false} FoldFlips(v: Cells)
    requires |v| > 0 && NoInfinity(v)
    ensures FoldMax(Flip(v)) == Neg(FoldMin(v)) && FoldMin(Flip(v)) == Neg(FoldMax(v))
    ensures FoldMax(v).Fin? == FoldMin(v).Fin? && (FoldMax(v).Fin? || FoldMax(v).NaN?) && (FoldMin(v).Fin? || FoldMin(v).NaN?)
  {
    if |v| > 1 {
      assert Flip(v)[..|v| - 1] == Flip(v[..|v| - 1]);
      FoldFlips(v[..|v| - 1]);
    }
  }

  lemma WindowFlips(v: Cells, i: nat)
    requires DIVERGENCE_LOOKBACK < i < |v| && NoInfinity(v)
    ensures var n := DIVERGENCE_LOOKBACK;
      && RollCell(FoldMax, Flip(v), n, i - 1) == Neg(RollCell(FoldMin, v, n, i - 1))
      && RollCell(FoldMin, Flip(v), n, i - 1) == Neg(RollCell(FoldMax, v, n, i - 1))
      && RollCell(FoldMax, v, n, i - 1).Fin? == RollCell(FoldMin, v, n, i - 1).Fin?
  {
    assert Window(Flip(v), DIVERGENCE_LOOKBACK, i - 1) == Flip(Window(v, DIVERGENCE_LOOKBACK, i - 1));
    FoldFlips(Window(v, DIVERGENCE_LOOKBACK, i - 1));
  }

  /** The extreme of the window that ended the bar before. */
  function Before(v: Cells, high: bool, i: nat): Num
    requires DIVERGENCE_LOOKBACK < i < |v|
  {
    RollCell(if high then FoldMax else FoldMin, v, DIVERGENCE_LOOKBACK, i - 1)
  }

  predicate NewExtreme(v: Cells, low: bool, i: nat)
    requires DIVERGENCE_LOOKBACK < i < |v|
  {
    if low then Lt(v[i], Before(v, false, i)) else Lt(Before(v, true, i), v[i])
  }

  lemma DivergenceAt(price: Cells, other: Cells, hidden: bool, bullish: bool, i: nat)
    requires DIVERGENCE_LOOKBACK < i < |price| == |other|
    ensures DivergenceCell(price, other, hidden, bullish, i) ==
      (&& NewExtreme(price, bullish, i) == !hidden && NewExtreme(other, bullish, i) == hidden
       && price[i].Fin? && other[i].Fin? && Before(price, true, i).Fin? && Before(other, true, i).Fin?)
  {
    ExtremeBefore(price, true, i);
    ExtremeBefore(price, false, i);
    ExtremeBefore(other, true, i);
    ExtremeBefore(other, false, i);
    hide Rotate, RollCell, Highest, Lowest, Lt;
  }

  lemma NewExtremeFlips(v: Cells, low: bool, i: nat)
    requires DIVERGENCE_LOOKBACK < i < |v| && NoInfinity(v)
    ensures NewExtreme(Flip(v), !low, i) == NewExtreme(v, low, i) && Flip(v)[i].Fin? == v[i].Fin?
    ensures Before(Flip(v), true, i).Fin? == Before(v, true, i).Fin?
  {
    hide RollCell;
    WindowFlips(v, i);
  }

  /** Bullish and bearish are mirror images, and so are regular and hidden with the two lines exchanged. */
  lemma DivergenceMirrors(price: Cells, other: Cells, hidden: bool, bullish: bool, i: nat)
    requires i < |price| == |other| && NoInfinity(price) && NoInfinity(other)
    ensures DivergenceCell(price, other, hidden, bullish, i) == DivergenceCell(Flip(price), Flip(other), hidden, !bullish, i)
    ensures DivergenceCell(price, other, hidden, bullish, i) == DivergenceCell(other, price, !hidden, bullish, i)
  {
    hide Rotate, RollCell, Highest, Lowest, NewExtreme, Before, NoInfinity;
    if i > DIVERGENCE_LOOKBACK {
      hide DivergenceCell;
      DivergenceAt(price, other, hidden, bullish, i);
      DivergenceAt(other, price, !hidden, bullish, i);
      DivergenceAt(Flip(price), Flip(other), hidden, !bullish, i);
      NewExtremeFlips(price, bullish, i);
      NewExtremeFlips(other, bullish, i);
    }
  }
}
