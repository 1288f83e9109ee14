/** The loops of packages/engine/quanta_engine/series.py that fill an output array in place,
    each equal to its cell-by-cell specification. None stands for the ValueError on a length below 1.
  */
module SeriesLoops {
  import opened Wrappers
  import opened Num
  import opened Series

  /** np.full(values.shape, np.nan). */
  method FullNaN(size: nat) returns (out: array<Num>)
    ensures fresh(out) && out.Length == size
    ensures forall k :: 0 <= k < size ==> out[k] == NaN
  {
    out := new Num[size](_ => NaN);
  }

  /** The loop of `ema` and of `wilder`: a seed, then one smoothing step a bar. */
  method SmoothLoop(kind: Smoothing, values: array<Num>, length: int) returns (out: Option<array<Num>>)
    ensures out.None? <==> length < 1
    ensures out.Some? ==> fresh(out.value) && out.value[..] == Smooth(kind, values[..], length)
  {
    hide SmoothStep, Mean;
    if length < 1 { return None; }
    ghost var v := values[..];
    var cells := FullNaN(values.Length);
    if values.Length >= length {
      var previous := Mean(values[..length]);
      assert values[..length] == v[..length];
      cells[length - 1] := previous;
      for i := length to values.Length
        invariant values[..] == v
        invariant previous == SmoothCell(kind, v, length, i - 1)
        invariant forall k :: 0 <= k < i ==> cells[k] == SmoothCell(kind, v, length, k)
      {
        previous := SmoothStep(kind, length, previous, values[i]);
        cells[i] := previous;
      }
    }
    assert cells[..] == Smooth(kind, v, length);
    return Some(cells);
  }

  /** The loop of `highest`, `lowest` and `stdev`: one window a bar. */
  method RollLoop(f: Cells --> Num, values: array<Num>, length: int) returns (out: Option<array<Num>>)
    requires forall w: Cells :: |w| > 0 ==> f.requires(w)
    ensures out.None? <==> length < 1
    ensures out.Some? ==> fresh(out.value) && out.value[..] == Roll(f, values[..], length)
  {
    if length < 1 { return None; }
    var cells := FullNaN(values.Length);
    var i := length - 1;
    while i < values.Length
      invariant length - 1 <= i
      invariant forall k :: 0 <= k < i && k < values.Length ==> cells[k] == RollCell(f, values[..], length, k)
      invariant forall k :: i <= k < values.Length ==> cells[k] == NaN
    {
      assert values[i + 1 - length..i + 1] == Window(values[..], length, i);
      cells[i] := f(values[i + 1 - length..i + 1]);
      i := i + 1;
    }
    assert cells[..] == Roll(f, values[..], length);
    return Some(cells);
  }

  /** The loop of `_monotonic`, which narrows an all-true mask once a step. */
  method MonotonicLoop(values: array<Num>, length: int, increasing: bool) returns (out: Option<array<bool>>)
    ensures out.None? <==> length < 1
    ensures out.Some? ==> fresh(out.value) && out.value[..] == Monotonic(values[..], length, increasing)
  {
    if length < 1 { return None; }
    var mask := new bool[values.Length](_ => true);
    for step := 0 to length
      invariant forall k :: 0 <= k < mask.Length ==> mask[k] == MonotonicCell(values[..], step, increasing, k)
    {
      var later, earlier := Shift(values[..], step), Shift(values[..], step + 1);
      for k := 0 to mask.Length
        invariant forall j :: 0 <= j < k ==> mask[j] == MonotonicCell(values[..], step + 1, increasing, j)
        invariant forall j :: k <= j < mask.Length ==> mask[j] == MonotonicCell(values[..], step, increasing, j)
      {
        mask[k] := mask[k] && Moved(earlier[k], later[k], increasing) && !later[k].NaN? && !earlier[k].NaN?;
      }
    }
    assert mask[..] == Monotonic(values[..], length, increasing);
    return Some(mask);
  }

  /** np.nancumsum behind a leading zero. */
  method RunningSums(values: array<Num>) returns (cumulative: array<Num>)
    ensures fresh(cumulative) && cumulative.Length == values.Length + 1
    ensures forall j {:trigger cumulative[j]} :: 0 <= j <= values.Length ==> cumulative[j] == NanCumulative(values[..], j)
  {
    ghost var v := values[..];
    cumulative := FullNaN(values.Length + 1);
    cumulative[0] := ZERO;
    for k := 0 to values.Length
      invariant values[..] == v && forall j {:trigger cumulative[j]} :: 0 <= j <= k ==> cumulative[j] == NanCumulative(v, j)
    {
      var next := Add(cumulative[k], NanToZero(values[k]));
      assert next == NanCumulative(v, k + 1);
      cumulative[k + 1] := next;
    }
  }

  /** `sma` by running sums: the difference of two entries of one cumulative array. */
  method SmaByRunningSum(values: array<Num>, length: int) returns (out: Option<array<Num>>)
    ensures out.None? <==> length < 1
    ensures out.Some? ==> fresh(out.value) && out.value[..] == Sma(values[..], length)
  {
    if length < 1 { return None; }
    ghost var v := values[..];
    var sums := RunningSums(values);
    var cells := FullNaN(values.Length);
    var i := length - 1;
    while i < values.Length
      invariant length - 1 <= i && values[..] == v
      invariant forall j {:trigger sums[j]} :: 0 <= j <= |v| ==> sums[j] == NanCumulative(v, j)
      invariant forall k :: 0 <= k < i && k < |v| ==> cells[k] == SmaCell(v, length, k)
      invariant forall k :: i <= k < |v| ==> cells[k] == NaN
    {
      cells[i] := Div(Sub(sums[i + 1], sums[i + 1 - length]), Fin(length as real));
      i := i + 1;
    }
    assert cells[..] == Sma(v, length);
    return Some(cells);
  }

  // --- what the running-sum average is an average of ----------------------

  /** No infinities: a cell is a number or missing. */
  predicate Bounded(v: Cells) {
    forall k :: 0 <= k < |v| ==> v[k].Fin? || v[k].NaN?
  }

  lemma {:induction false} CumulativeFinite(v: Cells, k: nat)
    requires Bounded(v) && k <= |v|
    ensures NanCumulative(v, k).Fin?
  {
    if k > 0 { CumulativeFinite(v, k - 1); }
  }

  lemma {:induction false} CumulativeSplit(v: Cells, j: nat, k: nat)
    requires Bounded(v) && j <= k <= |v|
    requires forall m :: j <= m < k ==> v[m].Fin?
    ensures Sum(v[j..k], k - j) == Sub(NanCumulative(v, k), NanCumulative(v, j))
  {
    CumulativeFinite(v, j);
    if j < k {
      CumulativeFinite(v, k - 1);
      CumulativeSplit(v, j, k - 1);
      SumPrefix(v[j..k], k - 1 - j);
      assert v[j..k][..k - 1 - j] == v[j..k - 1];
    }
  }

  lemma {:induction false} SumPrefix(v: Cells, k: nat)
    requires k <= |v|
    ensures Sum(v[..k], k) == Sum(v, k)
  {
    SumOfPrefix(v, k, k);
  }

  lemma {:induction false} SumOfPrefix(v: Cells, n: nat, k: nat)
    requires k <= n <= |v|
    ensures Sum(v[..n], k) == Sum(v, k)
  {
    if k > 0 { SumOfPrefix(v, n, k - 1); }
  }

  lemma {:induction false} SumHitsNaN(v: Cells, k: nat, m: nat)
    requires m < k <= |v| && v[m].NaN?
    ensures Sum(v, k).NaN?
  {
    if m < k - 1 { SumHitsNaN(v, k - 1, m); }
  }

  /** A rolling mean equals the mean of its window exactly when the window has no missing cell:
      over a gap the running sum gives a number where the window's own mean is missing.
    */
  lemma SmaIsWindowMean(v: Cells, length: nat, i: nat)
    requires Bounded(v) && 1 <= length <= i + 1 <= |v|
    ensures SmaCell(v, length, i).Fin?
    ensures SmaCell(v, length, i) == Mean(Window(v, length, i)) <==>
      forall k :: i + 1 - length <= k <= i ==> v[k].Fin?
  {
    CumulativeFinite(v, i + 1 - length);
    CumulativeFinite(v, i + 1);
    if k :| i + 1 - length <= k <= i && !v[k].Fin? {
      var w := Window(v, length, i);
      assert w[k - (i + 1 - length)] == v[k];
      SumHitsNaN(w, |w|, k - (i + 1 - length));
    } else {
      CumulativeSplit(v, i + 1 - length, i + 1);
    }
  }
}
