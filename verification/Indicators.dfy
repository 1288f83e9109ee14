/** What the indicators compute on numbers (packages/engine/quanta_engine/series.py), in real arithmetic. */
module Indicators {
  import opened Num
  import opened Series

  predicate AllReal(v: Cells) {
    forall k :: 0 <= k < |v| ==> v[k].Fin?
  }

  predicate RealFrom(v: Cells, lo: int, hi: int)
    requires 0 <= lo && hi <= |v|
  {
    forall k :: lo <= k < hi ==> v[k].Fin?
  }

  /** The sum of the cells from lo up to hi. */
  function Total(v: Cells, lo: nat, hi: nat): real
    requires lo <= hi <= |v| && RealFrom(v, lo, hi)
  {
    if lo == hi then 0.0 else Total(v, lo, hi - 1) + v[hi - 1].v
  }

  // --- averages -----------------------------------------------------------

  lemma {:induction false} SumIsTotal(v: Cells, k: nat)
    requires k <= |v| && AllReal(v)
    ensures Sum(v, k) == Fin(Total(v, 0, k))
  {
    if k > 0 { SumIsTotal(v, k - 1); }
  }

  lemma {:induction false} CumulativeIsTotal(v: Cells, k: nat)
    requires k <= |v| && AllReal(v)
    ensures NanCumulative(v, k) == Fin(Total(v, 0, k))
  {
    if k > 0 { CumulativeIsTotal(v, k - 1); }
  }

  lemma {:induction false} TotalSplits(v: Cells, mid: nat, hi: nat)
    requires mid <= hi <= |v| && AllReal(v)
    ensures Total(v, 0, hi) == Total(v, 0, mid) + Total(v, mid, hi)
  {
    if mid < hi { TotalSplits(v, mid, hi - 1); }
  }

  lemma {:induction false} TotalOfFront(v: Cells, length: nat, hi: nat)
    requires hi <= length <= |v| && AllReal(v)
    ensures Total(v[..length], 0, hi) == Total(v, 0, hi)
  {
    if hi > 0 { TotalOfFront(v, length, hi - 1); }
  }

  lemma TimesQuotient(x: real, n: real)
    requires n != 0.0
    ensures n * (x / n) == x
  {
  }

  /** sma: missing until the window is full, then the mean of the last `length` cells. */
  lemma SmaMeans(v: Cells, length: nat, i: nat)
    requires AllReal(v) && length >= 1 && i < |v|
    ensures i + 1 < length ==> Sma(v, length)[i].NaN?
    ensures i + 1 >= length ==>
      Sma(v, length)[i].Fin? && length as real * Sma(v, length)[i].v == Total(v, i + 1 - length, i + 1)
  {
    if i + 1 >= length {
      CumulativeIsTotal(v, i + 1);
      CumulativeIsTotal(v, i + 1 - length);
      TotalSplits(v, i + 1 - length, i + 1);
      TimesQuotient(Total(v, i + 1 - length, i + 1), length as real);
    }
  }

  lemma SeedMeans(kind: Smoothing, v: Cells, length: nat)
    requires AllReal(v) && 1 <= length <= |v|
    ensures var seed := SmoothCell(kind, v, length, length - 1);
      seed.Fin? && length as real * seed.v == Total(v, 0, length)
  {
    SumIsTotal(v[..length], length);
    TotalOfFront(v, length, length);
    TimesQuotient(Total(v, 0, length), length as real);
  }

  lemma {:induction false} SmoothIsReal(kind: Smoothing, v: Cells, length: nat, i: nat)
    requires AllReal(v) && 1 <= length <= i + 1 <= |v|
    ensures SmoothCell(kind, v, length, i).Fin?
  {
    if i + 1 == length { SeedMeans(kind, v, length); } else { SmoothIsReal(kind, v, length, i - 1); }
  }

  lemma EmaWeighs(n: real, k: real, value: real, previous: real)
    requires n >= 1.0 && k == 2.0 / (n + 1.0)
    ensures (n + 1.0) * (value * k + previous * (1.0 - k)) == 2.0 * value + (n - 1.0) * previous
  {
    assert (n + 1.0) * k == 2.0;
    assert (n + 1.0) * (value * k) == value * ((n + 1.0) * k);
    assert (n + 1.0) * (previous * (1.0 - k)) == previous * ((n + 1.0) - (n + 1.0) * k);
  }

  /** ema: missing until the window is full, then the mean of the first `length` cells, and from there on a
      weighting of each new cell against the average before it as 2 to length - 1.
    */
  lemma EmaMeans(v: Cells, length: nat, i: nat)
    requires AllReal(v) && length >= 1 && i < |v|
    ensures var ema, n := Smooth(Exponential, v, length), length as real;
      && (i + 1 < length ==> ema[i].NaN?)
      && (i + 1 == length ==> ema[i].Fin? && n * ema[i].v == Total(v, 0, length))
      && (i + 1 > length ==>
            ema[i].Fin? && ema[i - 1].Fin? && (n + 1.0) * ema[i].v == 2.0 * v[i].v + (n - 1.0) * ema[i - 1].v)
  {
    hide SmoothCell, EmaStep, Total;
    if i + 1 < length { NotYet(Exponential, v, length, i); }
    if i + 1 == length { SeedMeans(Exponential, v, length); }
    if i + 1 > length {
      SmoothIsReal(Exponential, v, length, i - 1);
      EmaNext(v, length, i);
      EmaStepWeighs(length, SmoothCell(Exponential, v, length, i - 1).v, v[i].v);
    }
  }

  lemma NotYet(kind: Smoothing, v: Cells, length: nat, i: nat)
    requires length >= 1 && i < |v| && i + 1 < length
    ensures SmoothCell(kind, v, length, i).NaN?
  {
  }

  lemma EmaNext(v: Cells, length: nat, i: nat)
    requires length >= 1 && length <= i < |v|
    ensures SmoothCell(Exponential, v, length, i) == EmaStep(length, SmoothCell(Exponential, v, length, i - 1), v[i])
  {
    hide EmaStep;
  }

  lemma EmaStepWeighs(length: nat, previous: real, value: real)
    requires length >= 1
    ensures var n, next := length as real, EmaStep(length, Fin(previous), Fin(value));
      next.Fin? && (n + 1.0) * next.v == 2.0 * value + (n - 1.0) * previous
  {
    EmaWeighs(length as real, 2.0 / (length as real + 1.0), value, previous);
  }

  lemma WilderWeighs(length: nat, previous: real, value: real)
    requires length >= 1
    ensures var next := WilderStep(length, Fin(previous), Fin(value));
      && next.Fin? && length as real * next.v == (length as real - 1.0) * previous + value
      && (previous >= 0.0 && value >= 0.0 ==> next.v >= 0.0)
  {
    var n, next := length as real, WilderStep(length, Fin(previous), Fin(value)).v;
    TimesQuotient(previous * (n - 1.0) + value, n);
    hide WilderStep;
    if previous >= 0.0 && value >= 0.0 {
      assert (n - 1.0) * previous >= 0.0;
      SignOf(n, next);
    }
  }

  lemma WilderNext(v: Cells, length: nat, i: nat)
    requires length >= 1 && length <= i < |v|
    ensures SmoothCell(Wilders, v, length, i) == WilderStep(length, SmoothCell(Wilders, v, length, i - 1), v[i])
  {
  }

  /** Wilder's average: missing until the window is full, then the mean of the first `length` cells, and from
      there on a weighting of each new cell against the average before it as 1 to length - 1.
    */
  predicate IsWilder(out: Cells, v: Cells, length: nat, i: nat)
    requires i < |v| == |out| && AllReal(v)
  {
    var n := length as real;
    && (i + 1 < length ==> out[i].NaN?)
    && (i + 1 == length ==> out[i].Fin? && n * out[i].v == Total(v, 0, length))
    && (i + 1 > length >= 1 ==> out[i].Fin? && out[i - 1].Fin? && n * out[i].v == (n - 1.0) * out[i - 1].v + v[i].v)
  }

  lemma WilderMeans(v: Cells, length: nat, i: nat)
    requires AllReal(v) && length >= 1 && i < |v|
    ensures IsWilder(Smooth(Wilders, v, length), v, length, i)
  {
    hide WilderStep, Total, SmoothCell;
    if i + 1 < length { NotYet(Wilders, v, length, i); }
    if i + 1 == length { SeedMeans(Wilders, v, length); }
    if i + 1 > length {
      SmoothIsReal(Wilders, v, length, i - 1);
      WilderNext(v, length, i);
      WilderWeighs(length, SmoothCell(Wilders, v, length, i - 1).v, v[i].v);
    }
  }

  // --- windows ------------------------------------------------------------

  lemma {:induction false} FoldMaxMeans(v: Cells)
    requires |v| > 0 && AllReal(v)
    ensures FoldMax(v).Fin? && (forall k :: 0 <= k < |v| ==> v[k].v <= FoldMax(v).v) && FoldMax(v) in v
  {
    if |v| > 1 { FoldMaxMeans(v[..|v| - 1]); }
  }

  lemma {:induction false} FoldMinMeans(v: Cells)
    requires |v| > 0 && AllReal(v)
    ensures FoldMin(v).Fin? && (forall k :: 0 <= k < |v| ==> FoldMin(v).v <= v[k].v) && FoldMin(v) in v
  {
    if |v| > 1 { FoldMinMeans(v[..|v| - 1]); }
  }

  lemma {:induction false} FoldMissing(v: Cells)
    requires |v| > 0 && exists k :: 0 <= k < |v| && v[k].NaN?
    ensures FoldMax(v).NaN? && FoldMin(v).NaN?
  {
    if |v| > 1 && !v[|v| - 1].NaN? {
      var k :| 0 <= k < |v| && v[k].NaN?;
      assert v[..|v| - 1][k].NaN?;
      FoldMissing(v[..|v| - 1]);
    }
  }

  /** highest and lowest: the extremes of the last `length` cells; missing until there are as many, and where one
      of them is.
    */
  lemma ExtremesMean(v: Cells, length: nat, i: nat)
    requires length >= 1 && i < |v|
    ensures var high, low := Highest(v, length)[i], Lowest(v, length)[i];
      && (i + 1 < length ==> high.NaN? && low.NaN?)
      && (i + 1 >= length && (exists k :: i + 1 - length <= k <= i && v[k].NaN?) ==> high.NaN? && low.NaN?)
      && (i + 1 >= length && RealFrom(v, i + 1 - length, i + 1) ==>
            && high.Fin? && (exists k :: i + 1 - length <= k <= i && v[k] == high)
            && (forall k :: i + 1 - length <= k <= i ==> v[k].v <= high.v)
            && low.Fin? && (exists k :: i + 1 - length <= k <= i && v[k] == low)
            && (forall k :: i + 1 - length <= k <= i ==> low.v <= v[k].v))
  {
    hide FoldMax, FoldMin;
    if i + 1 >= length {
      var lo := i + 1 - length;
      var w := v[lo..i + 1];
      assert Window(v, length, i) == w;
      assert forall k :: lo <= k <= i ==> w[k - lo] == v[k];
      if k :| lo <= k <= i && v[k].NaN? {
        assert w[k - lo].NaN?;
        FoldMissing(w);
      }
      if RealFrom(v, lo, i + 1) {
        FoldMaxMeans(w);
        FoldMinMeans(w);
        var a :| 0 <= a < |w| && w[a] == FoldMax(w);
        var b :| 0 <= b < |w| && w[b] == FoldMin(w);
        assert v[lo + a] == FoldMax(w) && v[lo + b] == FoldMin(w);
      }
    }
  }

  // --- crossings and runs ---------------------------------------------------

  /** crossover and crossunder on numbers. */
  lemma CrossingsMean(a: Cells, b: Cells, i: nat)
    requires |a| == |b| && i < |a| && RealFrom(a, if i > 0 then i - 1 else 0, i + 1) && RealFrom(b, if i > 0 then i - 1 else 0, i + 1)
    ensures Crossover(a, b)[i] <==> i > 0 && a[i - 1].v <= b[i - 1].v && a[i].v > b[i].v
    ensures Crossunder(a, b)[i] <==> i > 0 && a[i - 1].v >= b[i - 1].v && a[i].v < b[i].v
  {
  }

  /** rising and falling: every one of the last `length` steps goes that way, and there are as many. */
  lemma {:induction false} RunsMean(v: Cells, length: nat, i: nat)
    requires i < |v| && RealFrom(v, if i > length then i - length else 0, i + 1)
    ensures Monotonic(v, length, true)[i] <==> length <= i && forall k :: i - length < k <= i ==> v[k - 1].v < v[k].v
    ensures Monotonic(v, length, false)[i] <==> length <= i && forall k :: i - length < k <= i ==> v[k - 1].v > v[k].v
  {
    if length > 0 { RunsMean(v, length - 1, i); }
  }

  /** A missing cell among those compared makes every one of these false. */
  lemma {:induction false} MissingMakesFalse(a: Cells, b: Cells, length: nat, i: nat, k: nat)
    requires |a| == |b| && i < |a| && i - length <= k <= i && (a[k].NaN? || b[k].NaN?)
    ensures i - 1 <= k ==> !Crossover(a, b)[i] && !Crossunder(a, b)[i]
    ensures a[k].NaN? && length >= 1 ==> !Monotonic(a, length, true)[i] && !Monotonic(a, length, false)[i]
  {
    if length > 1 && k > i - length { MissingMakesFalse(a, b, length - 1, i, k); }
  }

  // --- rsi and atr ------------------------------------------------------------

  /** The moves up and down that rsi averages. */
  lemma MovesMean(v: Cells, i: nat)
    requires AllReal(v) && i + 1 < |v|
    ensures var move := v[i + 1].v - v[i].v;
      && Gains(v)[i] == Fin(if move > 0.0 then move else 0.0)
      && Losses(v)[i] == Fin(if move < 0.0 then -move else 0.0)
  {
  }

  lemma MovesAreReal(v: Cells)
    requires AllReal(v) && |v| > 0
    ensures AllReal(Gains(v)) && AllReal(Losses(v))
  {
    forall i | 0 <= i < |v| - 1 ensures Gains(v)[i].Fin? && Losses(v)[i].Fin? { MovesMean(v, i); }
  }

  lemma {:induction false} AverageNotNegative(v: Cells, length: nat, i: nat)
    requires AllReal(v) && 1 <= length <= i + 1 <= |v| && forall k :: 0 <= k < |v| ==> v[k].v >= 0.0
    ensures SmoothCell(Wilders, v, length, i).Fin? && SmoothCell(Wilders, v, length, i).v >= 0.0
  {
    hide SmoothCell, WilderStep, Total;
    if i + 1 == length {
      SeedMeans(Wilders, v, length);
      TotalNotNegative(v, length);
      SignOf(length as real, SmoothCell(Wilders, v, length, i).v);
    } else {
      AverageNotNegative(v, length, i - 1);
      WilderNext(v, length, i);
      WilderWeighs(length, SmoothCell(Wilders, v, length, i - 1).v, v[i].v);
    }
  }

  lemma SignOf(n: real, x: real)
    requires n > 0.0 && n * x >= 0.0
    ensures x >= 0.0
  {
  }

  lemma {:induction false} TotalNotNegative(v: Cells, hi: nat)
    requires hi <= |v| && AllReal(v) && forall k :: 0 <= k < |v| ==> v[k].v >= 0.0
    ensures Total(v, 0, hi) >= 0.0
  {
    if hi > 0 { TotalNotNegative(v, hi - 1); }
  }

  /** The share of the average move up in the average moves up and down, in percent, and 100 where nothing moved
      down.
    */
  predicate IsShare(up: real, down: real, rsi: real) {
    if down == 0.0 then rsi == 100.0 else (up + down) * rsi == 100.0 * up
  }

  /** rsi: missing up to `length` cells and on the first `length` bars; then the share of the moves up. */
  lemma RsiMeans(v: Cells, length: nat, i: nat)
    requires AllReal(v) && length >= 1 && i < |v|
    ensures i < length || |v| <= length ==> Rsi(v, length)[i].NaN?
    ensures length <= i && length < |v| ==>
      var up, down := Smooth(Wilders, Gains(v), length)[i - 1], Smooth(Wilders, Losses(v), length)[i - 1];
      && up.Fin? && down.Fin? && up.v >= 0.0 && down.v >= 0.0
      && Rsi(v, length)[i].Fin? && IsShare(up.v, down.v, Rsi(v, length)[i].v)
  {
    MovesAreReal(v);
    if length <= i && length < |v| {
      forall k | 0 <= k < |v| - 1 ensures Gains(v)[k].v >= 0.0 && Losses(v)[k].v >= 0.0 { MovesMean(v, k); }
      hide Gains, Losses, RsiOf, SmoothCell, IsShare;
      AverageNotNegative(Gains(v), length, i - 1);
      AverageNotNegative(Losses(v), length, i - 1);
      Share(SmoothCell(Wilders, Gains(v), length, i - 1).v, SmoothCell(Wilders, Losses(v), length, i - 1).v);
    }
  }

  lemma Share(up: real, down: real)
    requires up >= 0.0 && down >= 0.0
    ensures var rsi := RsiOf(Fin(up), Fin(down)); rsi.Fin? && IsShare(up, down, rsi.v)
  {
    if down > 0.0 {
      var rs := up / down;
      assert down * rs == up;
      SignOf(down, rs);
      assert RsiOf(Fin(up), Fin(down)) == Fin(100.0 - 100.0 / (1.0 + rs));
      hide RsiOf;
      Percent(up, down, rs);
    }
  }

  lemma Percent(up: real, down: real, rs: real)
    requires rs >= 0.0 && down * rs == up
    ensures (up + down) * (100.0 - 100.0 / (1.0 + rs)) == 100.0 * up
  {
    var q := 100.0 / (1.0 + rs);
    assert (1.0 + rs) * q == 100.0;
    assert up + down == down * (1.0 + rs);
    assert (up + down) * q == down * ((1.0 + rs) * q);
  }

  function Larger(a: real, b: real): real { if a < b then b else a }
  function Smaller(a: real, b: real): real { if a < b then a else b }

  /** The true range reaches from the lower to the higher of the bar and the close before it. */
  lemma TrueRangeMeans(high: Cells, low: Cells, close: Cells, i: nat)
    requires i < |high| == |low| == |close| && AllReal(high) && AllReal(low) && AllReal(close) && low[i].v <= high[i].v
    ensures var tr := TrueRange(high, low, close)[i];
      tr == Fin(if i == 0 then high[i].v - low[i].v
                else Larger(high[i].v, close[i - 1].v) - Smaller(low[i].v, close[i - 1].v))
  {
  }

  /** atr: Wilder's average of the true ranges. */
  lemma AtrMeans(high: Cells, low: Cells, close: Cells, length: nat, i: nat)
    requires i < |high| == |low| == |close| && AllReal(high) && AllReal(low) && AllReal(close) && length >= 1
    ensures AllReal(TrueRange(high, low, close))
    ensures IsWilder(Atr(high, low, close, length), TrueRange(high, low, close), length, i)
  {
    var tr := TrueRange(high, low, close);
    forall k | 0 <= k < |tr| ensures tr[k].Fin? {}
    hide TrueRange, SmoothCell, IsWilder;
    WilderMeans(tr, length, i);
  }
}
