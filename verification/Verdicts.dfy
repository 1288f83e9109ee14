/** What the risk guard decides, in plain arithmetic (apps/api/quanta/services/risk.py). */
module Verdicts {
  import opened Arithmetic
  import opened Risk

  /** A guard's day starts at a midnight. */
  predicate OnMidnight(m: Memory) {
    m.dayStartedAt % 86_400_000_000 == 0
  }

  lemma DaysMean(at: int)
    ensures DayStart(at) % 86_400_000_000 == 0 && DayStart(at) <= at < DayStart(at) + 86_400_000_000
  {
  }

  /** The guard is always on a midnight. */
  lemma {:induction false} AlwaysOnMidnight(limits: Limits, equity: real, at: int, events: seq<Event>, k: nat)
    requires k <= |events|
    ensures OnMidnight(After(limits, Starting(equity, at), events, k).memory)
  {
    DaysMean(at);
    if k > 0 {
      AlwaysOnMidnight(limits, equity, at, events, k - 1);
      var before, e := After(limits, Starting(equity, at), events, k - 1), events[k - 1];
      StepLooks(limits, before, e);
      DaysMean(e.at);
      hide DayStart, Step;
    }
  }

  /** What the losses are measured from at an equity: that equity on a later day, and the highest seen. */
  function Base(m: Memory, equity: real, at: int): real {
    if at >= m.dayStartedAt + 86_400_000_000 then equity else m.dayStartEquity
  }

  function Highest(m: Memory, equity: real): real {
    if equity > m.peak then equity else m.peak
  }

  lemma ObservedMeans(m: Memory, equity: real, at: int)
    requires OnMidnight(m)
    ensures var seen := Observed(m, equity, at);
      && seen.dayStartEquity == Base(m, equity, at) && seen.peak == Highest(m, equity) && seen.recent == m.recent
      && (if at >= m.dayStartedAt + 86_400_000_000 then seen.dayStartedAt <= at < seen.dayStartedAt + 86_400_000_000
          else seen.dayStartedAt == m.dayStartedAt)
  {
    DaysMean(at);
    LaterDay(DayStart(at), m.dayStartedAt, at);
    hide DayStart;
  }

  lemma LaterDay(day: int, start: int, at: int)
    requires day % 86_400_000_000 == 0 && start % 86_400_000_000 == 0 && day <= at < day + 86_400_000_000
    ensures day > start <==> at >= start + 86_400_000_000
  {
  }

  predicate LostTooMuch(limits: Limits, base: real, equity: real) {
    base - equity >= limits.maxDailyLoss
  }

  /** The fall from the peak, as a share of it in percent, reaches the limit. */
  predicate FellTooFar(limits: Limits, peak: real, equity: real) {
    peak > 0.0 && 100.0 * (peak - equity) >= limits.maxDrawdownPercent * peak
  }

  lemma DropMeans(m: Memory, equity: real, percent: real)
    requires m.peak > 0.0
    ensures Drop(m, equity) >= percent <==> 100.0 * (m.peak - equity) >= percent * m.peak
  {
    var fall, peak := m.peak - equity, m.peak;
    var q := fall / peak;
    assert q * peak == fall;
    assert (q * 100.0) * peak == 100.0 * fall;
    ScaleOrder(percent, q * 100.0, peak);
  }

  /** The verdict on an order: an exit passes; an opening order meets the daily loss, the drawdown, the leverage,
      the orders of the last minute and the size it would bring the position to, in this order, and only the first
      three halt the bot.
    */
  lemma VerdictsMean(limits: Limits, m: Memory, order: Order, equity: real, at: int)
    requires OnMidnight(m)
    ensures Checked(limits, m, order, equity, at).1 ==
      if order.reduceOnly then Allowed
      else if LostTooMuch(limits, Base(m, equity, at), equity) then Refused(DailyLoss, true)
      else if FellTooFar(limits, Highest(m, equity), equity) then Refused(MaxDrawdown, true)
      else if order.leverage > limits.maxLeverage then Refused(LeverageTooHigh, true)
      else if |Trimmed(m.recent, at)| >= limits.maxOrdersPerMinute then Refused(RateLimited, false)
      else if order.held + order.qty * order.price > limits.maxPositionNotional then Refused(PositionTooLarge, false)
      else Allowed
  {
    ObservedMeans(m, equity, at);
    var seen := Observed(m, equity, at);
    if seen.peak > 0.0 { DropMeans(seen, equity, limits.maxDrawdownPercent); }
    hide Observed, Drop, Trimmed, Base, Highest, DayStart;
  }

  /** An equity alone is judged by the two losses. */
  lemma EquityVerdictsMean(limits: Limits, m: Memory, equity: real, at: int)
    requires OnMidnight(m)
    ensures Damage(limits, Observed(m, equity, at), equity) ==
      if LostTooMuch(limits, Base(m, equity, at), equity) then Refused(DailyLoss, true)
      else if FellTooFar(limits, Highest(m, equity), equity) then Refused(MaxDrawdown, true)
      else Allowed
  {
    ObservedMeans(m, equity, at);
    var seen := Observed(m, equity, at);
    if seen.peak > 0.0 { DropMeans(seen, equity, limits.maxDrawdownPercent); }
    hide Observed, Drop, Base, Highest, DayStart;
  }

  /** A bar reads the share of its limit that is used, never below 0 or above 100. */
  predicate IsShare(used: real, limit: real, share: real) {
    if used <= 0.0 then share == 0.0
    else if used >= limit then share == 100.0
    else share * limit == 100.0 * used
  }

  lemma ShareMeans(used: real, limit: real)
    requires limit > 0.0
    ensures IsShare(used, limit, MinReal(100.0, MaxReal(0.0, used) / limit * 100.0))
  {
    var q := MaxReal(0.0, used) / limit;
    assert q * limit == MaxReal(0.0, used);
    ShareOfLimit(used, limit);
    assert (q * 100.0) * limit == 100.0 * MaxReal(0.0, used);
    if used <= 0.0 { assert q == 0.0; }
    else if used < limit { assert MinReal(100.0, q * 100.0) == q * 100.0; }
  }

  lemma BudgetsMean(limits: Limits, m: Memory, equity: real)
    requires limits.Valid()
    ensures IsShare(m.dayStartEquity - equity, limits.maxDailyLoss, DailyBudget(limits, m, equity))
    ensures m.peak <= 0.0 ==> DrawdownBudget(limits, m, equity) == 0.0
    ensures m.peak > 0.0 ==>
      exists fall :: IsFall(m, equity, fall) && IsShare(fall, limits.maxDrawdownPercent, DrawdownBudget(limits, m, equity))
  {
    ShareMeans(m.dayStartEquity - equity, limits.maxDailyLoss);
    if m.peak > 0.0 {
      ShareMeans(Drop(m, equity), limits.maxDrawdownPercent);
      DropIsFall(m, equity);
    }
    hide IsShare, IsFall, Drop, MinReal, MaxReal;
  }

  /** The fall from the peak in percent of it. */
  predicate IsFall(m: Memory, equity: real, fall: real) {
    fall * m.peak == 100.0 * (m.peak - equity)
  }

  lemma DropIsFall(m: Memory, equity: real)
    requires m.peak > 0.0
    ensures IsFall(m, equity, Drop(m, equity))
  {
    var q := (m.peak - equity) / m.peak;
    assert q * m.peak == m.peak - equity;
    assert (q * 100.0) * m.peak == 100.0 * (q * m.peak);
  }

  /** The room offered: none for a price that is not positive or above the limit, else what fills it. */
  lemma OfferMeans(limits: Limits, price: real, held: real)
    ensures var offer := LargestAllowedQty(limits, price, held);
      && (price <= 0.0 || held >= limits.maxPositionNotional ==> offer == 0.0)
      && (price > 0.0 && held < limits.maxPositionNotional ==> held + offer * price == limits.maxPositionNotional)
  {
    if price > 0.0 {
      var q := (limits.maxPositionNotional - held) / price;
      assert q * price == limits.maxPositionNotional - held;
      if q < 0.0 { assert q * price < 0.0; }
      if q > 0.0 { assert q * price > 0.0; }
    }
  }

  /** A guard forgets an order once it is a minute old, and a recorded order is the last it remembers. */
  lemma {:induction false} MinuteMeans(recent: seq<int>, at: int)
    requires forall i, j :: 0 <= i < j < |recent| ==> recent[i] <= recent[j]
    ensures forall t :: t in Trimmed(recent, at) <==> t in recent && at - t < 60_000_000
  {
    if |recent| > 0 && at - recent[0] >= 60_000_000 {
      MinuteMeans(recent[1..], at);
      assert recent == [recent[0]] + recent[1..];
    } else {
      forall t | t in recent ensures at - t < 60_000_000 { var i :| 0 <= i < |recent| && recent[i] == t; }
    }
  }
}
