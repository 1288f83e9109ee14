/** Vectorised series primitives (packages/engine/quanta_engine/series.py).

    Each indicator is specified cell by cell, and the ones the source fills with a loop are
    given here as methods over arrays proved equal to that specification.
  */
module Series {
  import opened Num

  type Cells = seq<Num>

  // --- sums -------------------------------------------------------------

  /** The sum of the first k cells; one NaN makes it NaN. */
  function Sum(v: Cells, k: nat): Num
    requires k <= |v|
  {
    if k == 0 then ZERO else Add(Sum(v, k - 1), v[k - 1])
  }

  function NanToZero(a: Num): Num {
    if a.NaN? then ZERO else a
  }

  /** The running sum that counts NaN as zero. */
  function NanCumulative(v: Cells, k: nat): Num
    requires k <= |v|
  {
    if k == 0 then ZERO else Add(NanCumulative(v, k - 1), NanToZero(v[k - 1]))
  }

  function Mean(v: Cells): Num
    requires |v| > 0
  {
    Div(Sum(v, |v|), Fin(|v| as real))
  }

  // --- averages ---------------------------------------------------------

  function SmaCell(v: Cells, length: nat, i: nat): Num
    requires i < |v| && length >= 1
  {
    if i + 1 < length then NaN
    else Div(Sub(NanCumulative(v, i + 1), NanCumulative(v, i + 1 - length)), Fin(length as real))
  }

  function Sma(v: Cells, length: nat): Cells
    requires length >= 1
  {
    seq(|v|, i requires 0 <= i < |v| => SmaCell(v, length, i))
  }

  function EmaWeight(length: nat): Num {
    Fin(2.0 / (length as real + 1.0))
  }

  function EmaStep(length: nat, previous: Num, value: Num): Num {
    Add(Mul(value, EmaWeight(length)), Mul(previous, Sub(Fin(1.0), EmaWeight(length))))
  }

  function WilderStep(length: nat, previous: Num, value: Num): Num {
    Div(Add(Mul(previous, Fin(length as real - 1.0)), value), Fin(length as real))
  }

  /** Which recursive average: both are seeded with the mean of the first window. */
  datatype Smoothing = Exponential | Wilders

  function SmoothStep(kind: Smoothing, length: nat, previous: Num, value: Num): Num {
    match kind
    case Exponential => EmaStep(length, previous, value)
    case Wilders => WilderStep(length, previous, value)
  }

  function SmoothCell(kind: Smoothing, v: Cells, length: nat, i: nat): Num
    requires i < |v| && length >= 1
  {
    if i + 1 < length then NaN
    else if i + 1 == length then Mean(v[..length])
    else SmoothStep(kind, length, SmoothCell(kind, v, length, i - 1), v[i])
  }

  function Smooth(kind: Smoothing, v: Cells, length: nat): Cells
    requires length >= 1
  {
    seq(|v|, i requires 0 <= i < |v| => SmoothCell(kind, v, length, i))
  }

  // --- windows ----------------------------------------------------------

  function Window(v: Cells, length: nat, i: nat): Cells
    requires i < |v| && 1 <= length <= i + 1
  {
    v[i + 1 - length..i + 1]
  }

  function FoldMax(v: Cells): Num
    requires |v| > 0
  {
    if |v| == 1 then v[0] else Max(FoldMax(v[..|v| - 1]), v[|v| - 1])
  }

  function FoldMin(v: Cells): Num
    requires |v| > 0
  {
    if |v| == 1 then v[0] else Min(FoldMin(v[..|v| - 1]), v[|v| - 1])
  }

  /** A rolling window: the window's value once it is full, NaN before. */
  function RollCell(f: Cells --> Num, v: Cells, length: nat, i: nat): Num
    requires i < |v| && length >= 1
    requires forall w: Cells :: |w| > 0 ==> f.requires(w)
  {
    if i + 1 < length then NaN else f(Window(v, length, i))
  }

  function Roll(f: Cells --> Num, v: Cells, length: nat): Cells
    requires length >= 1
    requires forall w: Cells :: |w| > 0 ==> f.requires(w)
  {
    seq(|v|, i requires 0 <= i < |v| => RollCell(f, v, length, i))
  }

  function Highest(v: Cells, length: nat): Cells
    requires length >= 1
  {
    Roll(FoldMax, v, length)
  }

  function Lowest(v: Cells, length: nat): Cells
    requires length >= 1
  {
    Roll(FoldMin, v, length)
  }

  // --- shifts and comparisons -------------------------------------------

  function ShiftCell(v: Cells, periods: nat, i: nat): Num
    requires i < |v|
  {
    if i < periods then NaN else v[i - periods]
  }

  function Shift(v: Cells, periods: nat): Cells {
    seq(|v|, i requires 0 <= i < |v| => ShiftCell(v, periods, i))
  }

  predicate CrossCell(a: Cells, b: Cells, i: nat)
    requires i < |a| && i < |b|
  {
    i > 0 && Le(a[i - 1], b[i - 1]) && Lt(b[i], a[i])
  }

  /** a was at or below b on the bar before, and is above it on this one. */
  function Crossover(a: Cells, b: Cells): seq<bool>
    requires |a| == |b|
  {
    seq(|a|, i requires 0 <= i < |a| => CrossCell(a, b, i))
  }

  function Crossunder(a: Cells, b: Cells): seq<bool>
    requires |a| == |b|
  {
    Crossover(b, a)
  }

  predicate Moved(earlier: Num, later: Num, increasing: bool) {
    if increasing then Lt(earlier, later) else Lt(later, earlier)
  }

  /** Every one of the last `steps` moves up to bar i went the same way. */
  predicate MonotonicCell(v: Cells, steps: nat, increasing: bool, i: nat)
    requires i < |v|
  {
    steps == 0 ||
    (MonotonicCell(v, steps - 1, increasing, i) &&
     steps <= i && Moved(v[i - steps], v[i - steps + 1], increasing))
  }

  function Monotonic(v: Cells, length: nat, increasing: bool): seq<bool> {
    seq(|v|, i requires 0 <= i < |v| => MonotonicCell(v, length, increasing, i))
  }

  // --- RSI --------------------------------------------------------------

  function Change(v: Cells, i: nat): Num
    requires i + 1 < |v|
  {
    Sub(v[i + 1], v[i])
  }

  function Gains(v: Cells): Cells
    requires |v| > 0
  {
    seq(|v| - 1, i requires 0 <= i < |v| - 1 => Max(Change(v, i), ZERO))
  }

  function Losses(v: Cells): Cells
    requires |v| > 0
  {
    seq(|v| - 1, i requires 0 <= i < |v| - 1 => Max(Neg(Change(v, i)), ZERO))
  }

  /** RSI from the two averages; no losses at all reads 100. */
  function RsiOf(gain: Num, loss: Num): Num {
    if gain.NaN? then NaN
    else if Eq(loss, ZERO) then Fin(100.0)
    else Sub(Fin(100.0), Div(Fin(100.0), Add(Fin(1.0), Div(gain, loss))))
  }

  function RsiCell(v: Cells, length: nat, i: nat): Num
    requires i < |v| && length >= 1
  {
    if i == 0 || |v| <= length then NaN
    else RsiOf(SmoothCell(Wilders, Gains(v), length, i - 1), SmoothCell(Wilders, Losses(v), length, i - 1))
  }

  function Rsi(v: Cells, length: nat): Cells
    requires length >= 1
  {
    seq(|v|, i requires 0 <= i < |v| => RsiCell(v, length, i))
  }

  // --- ATR --------------------------------------------------------------

  function TrueRangeCell(high: Cells, low: Cells, close: Cells, i: nat): Num
    requires i < |high| == |low| == |close|
  {
    if i == 0 then Sub(high[0], low[0])
    else Max(Sub(high[i], low[i]), Max(Abs(Sub(high[i], close[i - 1])), Abs(Sub(low[i], close[i - 1]))))
  }

  function TrueRange(high: Cells, low: Cells, close: Cells): Cells
    requires |high| == |low| == |close|
  {
    seq(|high|, i requires 0 <= i < |high| => TrueRangeCell(high, low, close, i))
  }

  function Atr(high: Cells, low: Cells, close: Cells, length: nat): (r: Cells)
    requires |high| == |low| == |close| && length >= 1
    ensures |r| == |high|
  {
    Smooth(Wilders, TrueRange(high, low, close), length)
  }
}
