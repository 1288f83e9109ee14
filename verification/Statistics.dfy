/** Drawdown and profit statistics (packages/engine/quanta_engine/backtest/stats.py). */
module Statistics {
  import opened Wrappers
  import opened Arithmetic
  import opened Market
  import opened Ledger

  // --- drawdown ------------------------------------------------------------------------

  /** np.maximum.accumulate: the highest equity up to a bar. */
  function Peak(equity: seq<real>, i: nat): (r: real)
    requires i < |equity|
    ensures exists k :: 0 <= k <= i && equity[k] == r
    ensures forall k :: 0 <= k <= i ==> equity[k] <= r
  {
    if i == 0 then equity[0] else MaxReal(Peak(equity, i - 1), equity[i])
  }

  /** The percentage below the running peak. */
  function DropAt(equity: seq<real>, i: nat): real
    requires i < |equity|
  {
    var peak := Peak(equity, i);
    if peak > 0.0 then (equity[i] - peak) / peak * 100.0 else 0.0
  }

  /** np.argmin: the first of the smallest. */
  function FirstLowest(equity: seq<real>, n: nat): (r: nat)
    requires 1 <= n <= |equity|
    ensures r < n
    ensures forall j :: 0 <= j < n ==> DropAt(equity, r) <= DropAt(equity, j)
    ensures forall j :: 0 <= j < r ==> DropAt(equity, r) < DropAt(equity, j)
  {
    if n == 1 then 0
    else
      var before := FirstLowest(equity, n - 1);
      if DropAt(equity, n - 1) < DropAt(equity, before) then n - 1 else before
  }

  /** np.argmax: the first of the largest. */
  function FirstHighest(equity: seq<real>, n: nat): (r: nat)
    requires 1 <= n <= |equity|
    ensures r < n
    ensures forall j :: 0 <= j < n ==> equity[j] <= equity[r]
    ensures forall j :: 0 <= j < r ==> equity[j] < equity[r]
  {
    if n == 1 then 0
    else
      var before := FirstHighest(equity, n - 1);
      if equity[n - 1] > equity[before] then n - 1 else before
  }

  datatype Drawdown = Drawdown(depth: real, peak: nat, trough: nat)

  function MaxDrawdown(equity: seq<real>): Drawdown {
    if |equity| == 0 then Drawdown(0.0, 0, 0)
    else
      var trough := FirstLowest(equity, |equity|);
      Drawdown(DropAt(equity, trough), if trough > 0 then FirstHighest(equity, trough + 1) else 0, trough)
  }

  /** The fall from one bar to another, in percent of the first. */
  function Fall(equity: seq<real>, i: nat, j: nat): real
    requires i < |equity| && j < |equity| && equity[i] != 0.0
  {
    (equity[j] - equity[i]) / equity[i] * 100.0
  }

  lemma FallOrder(low: real, high: real, at: real)
    requires 0.0 < low <= high && at >= 0.0
    ensures (at - high) / high * 100.0 <= (at - low) / low * 100.0
  {
    Ratio(at, low);
    Ratio(at, high);
    DivideBack(at, low);
    DivideBack(at, high);
    Larger(at / low, at / high, low, high);
  }

  lemma Larger(a: real, b: real, low: real, high: real)
    requires 0.0 < low <= high && a * low == b * high && b * high >= 0.0
    ensures b <= a
  {
    if a < b { Product(a, b, low, high); }
  }

  lemma Ratio(at: real, of: real)
    requires of > 0.0
    ensures (at - of) / of == at / of - 1.0
  {
    DivideBack(at, of);
    DivideBack(at - of, of);
    Cancel((at - of) / of, at / of - 1.0, of);
  }

  lemma Product(a: real, b: real, low: real, high: real)
    requires 0.0 < low <= high && a < b && b * high >= 0.0
    ensures a * low < b * high
  {
    assert b >= 0.0;
    assert (b - a) * low > 0.0;
    assert b * (high - low) >= 0.0;
  }

  lemma PeakPositive(equity: seq<real>, i: nat)
    requires i < |equity| && equity[0] > 0.0
    ensures Peak(equity, i) > 0.0
  {
  }

  /** An account that starts above zero and never goes below it. */
  predicate NeverNegative(equity: seq<real>) {
    |equity| > 0 && equity[0] > 0.0 && forall j :: 0 <= j < |equity| ==> equity[j] >= 0.0
  }

  /** No fall from a positive equity to the same or a later bar goes deeper. */
  predicate Deepest(equity: seq<real>, depth: real) {
    forall i: nat, j: nat :: i <= j < |equity| && equity[i] > 0.0 ==> depth <= Fall(equity, i, j)
  }

  /** The bar with the lowest positive equity up to a bar. */
  function LowestPositive(equity: seq<real>, j: nat): (r: nat)
    requires j < |equity| && equity[0] > 0.0
    ensures r <= j && equity[r] > 0.0
    ensures forall i :: 0 <= i <= j && equity[i] > 0.0 ==> equity[r] <= equity[i]
  {
    if j == 0 then 0
    else
      var before := LowestPositive(equity, j - 1);
      if 0.0 < equity[j] < equity[before] then j else before
  }

  lemma FallToNegative(low: real, high: real, at: real)
    requires 0.0 < low <= high && at < 0.0
    ensures (at - low) / low * 100.0 <= (at - high) / high * 100.0
  {
    FallOrder(low, high, -at);
    Opposite(at, low);
    Opposite(at, high);
  }

  lemma Opposite(at: real, of: real)
    requires of > 0.0
    ensures (at - of) / of == -((-at - of) / of) - 2.0
  {
    Ratio(at, of);
    Ratio(-at, of);
    DivideBack(at, of);
    DivideBack(-at, of);
    Cancel(at / of, -(-at / of), of);
  }

  lemma FallFromLowest(equity: seq<real>, i: nat, j: nat)
    requires |equity| > 0 && equity[0] > 0.0 && i <= j < |equity| && equity[i] > 0.0 && equity[j] < 0.0
    ensures Fall(equity, LowestPositive(equity, j), j) <= Fall(equity, i, j)
  {
    FallToNegative(equity[LowestPositive(equity, j)], equity[i], equity[j]);
    hide LowestPositive;
  }

  /** Some bar lies as deep under its running peak as bar j does under the lowest positive equity before it. */
  predicate Matched(equity: seq<real>, j: nat)
    requires j < |equity| && equity[0] > 0.0
  {
    exists k :: 0 <= k < |equity| && DropAt(equity, k) <= Fall(equity, LowestPositive(equity, j), j)
  }

  lemma ReportedMatches(equity: seq<real>, j: nat)
    requires j < |equity| && equity[0] > 0.0
    ensures Matched(equity, j) <==> MaxDrawdown(equity).depth <= Fall(equity, LowestPositive(equity, j), j)
  {
    hide DropAt, Fall, LowestPositive, FirstHighest, FirstLowest;
    var trough := FirstLowest(equity, |equity|);
    assert MaxDrawdown(equity).depth == DropAt(equity, trough);
  }

  /** The depth reported is a fall that happened, and the deepest one exactly when every bar below zero is
      matched: some bar lies as deep under its running peak as that bar does under the lowest positive equity
      before it. Bars at or above zero never matter.
    */
  lemma MaxDrawdownIsDeepestExactlyWhen(equity: seq<real>)
    requires |equity| > 0 && equity[0] > 0.0
    ensures var d := MaxDrawdown(equity);
      && d.peak <= d.trough < |equity| && equity[d.peak] > 0.0 && d.depth == Fall(equity, d.peak, d.trough)
      && (Deepest(equity, d.depth) <==>
          forall j: nat :: j < |equity| && equity[j] < 0.0 ==> Matched(equity, j))
    ensures MaxDrawdown([]) == Drawdown(0.0, 0, 0)
  {
    hide Peak, DropAt, Fall, FirstLowest, FirstHighest, LowestPositive, Matched;
    var d := MaxDrawdown(equity);
    forall j: nat | j < |equity|
      ensures Matched(equity, j) <==> d.depth <= Fall(equity, LowestPositive(equity, j), j)
    {
      ReportedMatches(equity, j);
    }
    DropIsFall(equity, d.trough, d.peak) by { NamedPeak(equity, d.trough); }
    forall i: nat, j: nat | i <= j < |equity| && equity[i] > 0.0
      ensures equity[j] >= 0.0 ==> d.depth <= Fall(equity, i, j)
      ensures equity[j] < 0.0 ==> Fall(equity, LowestPositive(equity, j), j) <= Fall(equity, i, j)
    {
      if equity[j] >= 0.0 { FallFromPeak(equity, i, j); } else { FallFromLowest(equity, i, j); }
    }
  }

  /** For an account that never goes below zero it always is. */
  lemma MaxDrawdownIsDeepestFall(equity: seq<real>)
    requires NeverNegative(equity)
    ensures var d := MaxDrawdown(equity);
      && d.peak <= d.trough < |equity| && equity[d.peak] > 0.0 && d.depth == Fall(equity, d.peak, d.trough)
      && forall i: nat, j: nat :: i <= j < |equity| && equity[i] > 0.0 ==> d.depth <= Fall(equity, i, j)
  {
    hide MaxDrawdown, Fall, Matched;
    MaxDrawdownIsDeepestExactlyWhen(equity);
  }

  /** The first highest bar up to the trough stands at the running peak. */
  lemma NamedPeak(equity: seq<real>, trough: nat)
    requires trough < |equity|
    ensures equity[if trough > 0 then FirstHighest(equity, trough + 1) else 0] == Peak(equity, trough)
  {
    var k :| 0 <= k <= trough && equity[k] == Peak(equity, trough);
    hide Peak, FirstHighest;
  }

  lemma DropIsFall(equity: seq<real>, i: nat, peak: nat)
    requires i < |equity| && peak < |equity| && equity[peak] == Peak(equity, i) && equity[0] > 0.0
    ensures equity[peak] > 0.0 && DropAt(equity, i) == Fall(equity, peak, i)
  {
    PeakPositive(equity, i);
    hide Peak;
  }

  lemma FallFromPeak(equity: seq<real>, i: nat, j: nat)
    requires |equity| > 0 && equity[0] > 0.0 && i <= j < |equity| && equity[i] > 0.0 && equity[j] >= 0.0
    ensures DropAt(equity, j) <= Fall(equity, i, j)
  {
    PeakPositive(equity, j);
    FallOrder(equity[i], Peak(equity, j), equity[j]);
    hide Peak;
  }

  /** Below zero it need not be: here the deepest fall is 120% and 110% is reported. */
  lemma NegativeEquityUnderstates()
    ensures var equity := [100.0, 50.0, -10.0];
      MaxDrawdown(equity).depth == -110.0 && Fall(equity, 1, 2) == -120.0
  {
    var equity := [100.0, 50.0, -10.0];
    assert Peak(equity, 0) == 100.0;
    assert Peak(equity, 1) == 100.0;
    assert Peak(equity, 2) == 100.0;
    assert DropAt(equity, 2) == -110.0;
    assert FirstLowest(equity, 3) == 2;
  }

  // --- time under water ------------------------------------------------------------------

  predicate UnderWater(equity: seq<real>, j: nat)
    requires j < |equity|
  {
    exists i :: 0 <= i < j && equity[i] > equity[j]
  }

  predicate Stretch(equity: seq<real>, a: nat, b: nat) {
    a <= b <= |equity| && forall j :: a <= j < b ==> UnderWater(equity, j)
  }

  lemma BelowPeak(equity: seq<real>, j: nat)
    requires j < |equity|
    ensures equity[j] < Peak(equity, j) <==> UnderWater(equity, j)
  {
    if equity[j] < Peak(equity, j) {
      var k :| 0 <= k <= j && equity[k] == Peak(equity, j);
      assert k < j;
    }
  }

  /** The longest unbroken stretch of bars, each below an earlier one. */
  method LongestDrawdownBars(equity: seq<real>) returns (longest: nat)
    ensures forall a: nat, b: nat :: Stretch(equity, a, b) ==> b - a <= longest
    ensures exists a: nat, b: nat :: Stretch(equity, a, b) && b - a == longest
  {
    longest := 0;
    var current := 0;
    ghost var from: nat, until: nat := 0, 0;
    for i := 0 to |equity|
      invariant current <= i && Stretch(equity, i - current, i)
      invariant current < i ==> !UnderWater(equity, i - current - 1)
      invariant Stretch(equity, from, until) && until - from == longest
      invariant forall a: nat, b: nat :: Stretch(equity, a, b) && b <= i ==> b - a <= longest
    {
      BelowPeak(equity, i);
      current := if equity[i] < Peak(equity, i) then current + 1 else 0;
      forall a: nat, b: nat | Stretch(equity, a, b) && b <= i + 1 ensures b - a <= if current > longest then current else longest {
        if b == i + 1 && a < b { assert UnderWater(equity, i); }
      }
      if current > longest {
        longest := current;
        from, until := i + 1 - current, i + 1;
      }
    }
  }

  // --- profit factor -----------------------------------------------------------------------

  function Won(trades: seq<Trade>): real {
    if |trades| == 0 then 0.0
    else Won(trades[..|trades| - 1]) + MaxReal(trades[|trades| - 1].netPnl, 0.0)
  }

  function Lost(trades: seq<Trade>): real {
    if |trades| == 0 then 0.0
    else Lost(trades[..|trades| - 1]) + MaxReal(-trades[|trades| - 1].netPnl, 0.0)
  }

  function ProfitFactor(trades: seq<Trade>): Option<real> {
    if Lost(trades) > 0.0 then Some(Won(trades) / Lost(trades)) else None
  }

  lemma {:induction false} WonMinusLost(trades: seq<Trade>)
    ensures Won(trades) - Lost(trades) == NetTotal(trades) && Won(trades) >= 0.0 && Lost(trades) >= 0.0
    ensures Lost(trades) == 0.0 <==> forall k :: 0 <= k < |trades| ==> trades[k].netPnl >= 0.0
  {
    if |trades| > 0 {
      var front := trades[..|trades| - 1];
      WonMinusLost(front);
      if Lost(trades) == 0.0 {
        forall k | 0 <= k < |trades| ensures trades[k].netPnl >= 0.0 { if k < |front| { assert front[k].netPnl >= 0.0; } }
      }
    }
  }

  /** The factor is missing exactly when no trade lost, and at least 1 exactly when the trades together did
      not lose.
    */
  lemma ProfitFactorMeans(trades: seq<Trade>)
    ensures ProfitFactor(trades).None? <==> forall k :: 0 <= k < |trades| ==> trades[k].netPnl >= 0.0
    ensures ProfitFactor(trades).Some? ==> (ProfitFactor(trades).value >= 1.0 <==> NetTotal(trades) >= 0.0)
  {
    WonMinusLost(trades);
    var won, lost := Won(trades), Lost(trades);
    if lost > 0.0 {
      DivideBack(won, lost);
      AtLeastOne(won / lost, won, lost);
    }
  }

  lemma AtLeastOne(f: real, won: real, lost: real)
    requires lost > 0.0 && f * lost == won
    ensures f >= 1.0 <==> won >= lost
  {
    if f >= 1.0 { assert (f - 1.0) * lost >= 0.0; } else { assert (1.0 - f) * lost > 0.0; }
  }
}
