/** The bar's own extremes against a walk of its minutes: when the guess without minutes is pessimistic. */
module Coarse {
  import opened Wrappers
  import opened Market
  import opened Engine

  /** Minute bars whose extremes are the bar's. */
  predicate Spans(fine: Bars, high: real, low: real) {
    && (forall k :: 0 <= k < |fine| ==> low <= fine[k].low && fine[k].high <= high)
    && (exists k :: 0 <= k < |fine| && fine[k].high == high)
    && (exists k :: 0 <= k < |fine| && fine[k].low == low)
  }

  predicate Sane(fine: Bars) {
    forall k :: 0 <= k < |fine| ==> fine[k].low <= fine[k].high
  }

  /** An exit at `a` is no better for the trader than one at `b`. */
  predicate NoBetter(side: Side, a: real, b: real) {
    if side.Long? then a <= b else a >= b
  }

  /** The guess exits when the walk does, at a price no better for the trader. */
  predicate Pessimistic(p: Position, guess: Hit, walk: Hit) {
    && (guess.Some? <==> walk.Some?)
    && (guess.Some? && walk.Some? ==> NoBetter(p.trade.side, guess.value.1, walk.value.1))
  }

  lemma {:induction false} WalkHits(p: Position, fine: Bars, k: nat)
    requires k < |fine| && HitWithin(p, fine[k].high, fine[k].low).Some?
    ensures WalkMinutes(p, fine).Some?
  {
    hide HitWithin;
    if k > 0 { WalkHits(p, fine[1..], k - 1); }
  }

  lemma {:induction false} WalkComesFrom(p: Position, fine: Bars) returns (k: nat)
    requires WalkMinutes(p, fine).Some?
    ensures k < |fine| && WalkMinutes(p, fine) == HitWithin(p, fine[k].high, fine[k].low)
  {
    hide HitWithin;
    if HitWithin(p, fine[0].high, fine[0].low).Some? {
      k := 0;
    } else {
      k := WalkComesFrom(p, fine[1..]);
      k := k + 1;
    }
  }

  /** A level inside a minute is inside the bar. */
  lemma MinuteHitIsBarHit(p: Position, high: real, low: real, mHigh: real, mLow: real)
    requires low <= mLow && mHigh <= high && HitWithin(p, mHigh, mLow).Some?
    ensures HitWithin(p, high, low).Some?
  {
  }

  /** A level the bar touches, the minute at the right extreme touches too. */
  lemma BarHitIsExtremeHit(p: Position, high: real, low: real, top: Bar, bottom: Bar)
    requires HitWithin(p, high, low).Some? && top.high == high && bottom.low == low
    ensures HitWithin(p, top.high, top.low).Some? || HitWithin(p, bottom.high, bottom.low).Some?
  {
  }

  /** Without exception the two exit in the same bars. */
  lemma ExitsAgree(p: Position, high: real, low: real, fine: Bars)
    requires Spans(fine, high, low)
    ensures HitWithin(p, high, low).Some? <==> WalkMinutes(p, fine).Some?
  {
    hide HitWithin, WalkMinutes;
    if WalkMinutes(p, fine).Some? {
      var k := WalkComesFrom(p, fine);
      MinuteHitIsBarHit(p, high, low, fine[k].high, fine[k].low);
    }
    if HitWithin(p, high, low).Some? {
      var i :| 0 <= i < |fine| && fine[i].high == high;
      var j :| 0 <= j < |fine| && fine[j].low == low;
      BarHitIsExtremeHit(p, high, low, fine[i], fine[j]);
      if HitWithin(p, fine[i].high, fine[i].low).Some? { WalkHits(p, fine, i); } else { WalkHits(p, fine, j); }
    }
  }

  /** The level against the trader that the bar reaches: the liquidation price if it does, else the stop. */
  function AdverseLevel(p: Position, high: real, low: real): Option<real> {
    var liquidation, long := p.trade.liquidation, p.trade.side.Long?;
    if liquidation.Some? && (if long then liquidation.value > 0.0 && low <= liquidation.value else high >= liquidation.value)
    then liquidation
    else if p.stop.Some? && (if long then low <= p.stop.value else high >= p.stop.value) then p.stop
    else None
  }

  /** If the bar reaches a level against the trader, then the take profit is not on the wrong side of that
      level, or no part of the bar lies beyond the level, or none lies beyond the stop.
    */
  predicate TakeIsBeyond(p: Position, high: real, low: real) {
    var level := AdverseLevel(p, high, low);
    level.Some? && p.take.Some? ==>
      if p.trade.side.Long? then
        p.take.value >= level.value || high <= level.value || (p.stop.Some? && high <= p.stop.value)
      else
        p.take.value <= level.value || low >= level.value || (p.stop.Some? && low >= p.stop.value)
  }

  lemma MinutePriceNoWorse(p: Position, high: real, low: real, mHigh: real, mLow: real)
    requires TakeIsBeyond(p, high, low) && low <= mLow <= mHigh <= high && HitWithin(p, mHigh, mLow).Some?
    ensures HitWithin(p, high, low).Some?
    ensures NoBetter(p.trade.side, HitWithin(p, high, low).value.1, HitWithin(p, mHigh, mLow).value.1)
  {
  }

  lemma GuessIsPessimistic(p: Position, high: real, low: real, fine: Bars)
    requires TakeIsBeyond(p, high, low) && Spans(fine, high, low) && Sane(fine)
    ensures Pessimistic(p, HitWithin(p, high, low), WalkMinutes(p, fine))
  {
    hide HitWithin, WalkMinutes, TakeIsBeyond;
    ExitsAgree(p, high, low, fine);
    if WalkMinutes(p, fine).Some? {
      var k := WalkComesFrom(p, fine);
      MinutePriceNoWorse(p, high, low, fine[k].high, fine[k].low);
    }
  }

  /** The first minute trades only at the bar's favourable extreme, the second over the whole bar. */
  function Counterwalk(p: Position, high: real, low: real): Bars {
    var edge := if p.trade.side.Long? then high else low;
    [Bar(0, edge, edge, edge, edge, 0.0), Bar(1, edge, high, low, edge, 0.0)]
  }

  lemma GuessFlatters(p: Position, high: real, low: real)
    requires !TakeIsBeyond(p, high, low) && low <= high
    ensures Spans(Counterwalk(p, high, low), high, low)
    ensures !Pessimistic(p, HitWithin(p, high, low), WalkMinutes(p, Counterwalk(p, high, low)))
  {
    var fine := Counterwalk(p, high, low);
    assert fine[1].high == high && fine[1].low == low;
    assert WalkMinutes(p, fine) == HitWithin(p, fine[0].high, fine[0].low);
  }

  /** The guess is pessimistic for every course the minutes could have taken exactly when, should the bar reach
      the liquidation price or else the stop, the take profit is beyond that level, or the whole bar is on the
      near side of that level or of the stop, so that no minute could have reached the take profit first.
    */
  lemma GuessIsPessimisticExactlyWhen(p: Position, high: real, low: real)
    requires low <= high
    ensures TakeIsBeyond(p, high, low) <==>
      forall fine: Bars :: Spans(fine, high, low) && Sane(fine) ==>
        Pessimistic(p, HitWithin(p, high, low), WalkMinutes(p, fine))
  {
    hide HitWithin, WalkMinutes, TakeIsBeyond, Spans, Pessimistic;
    if TakeIsBeyond(p, high, low) {
      forall fine: Bars | Spans(fine, high, low) && Sane(fine)
        ensures Pessimistic(p, HitWithin(p, high, low), WalkMinutes(p, fine))
      {
        GuessIsPessimistic(p, high, low, fine);
      }
    } else {
      GuessFlatters(p, high, low);
      assert Sane(Counterwalk(p, high, low));
    }
  }

  /** Levels in their usual order, take profit beyond stop and liquidation, are always judged pessimistically. */
  lemma OrderedLevelsAreSafe(p: Position, high: real, low: real)
    requires p.stop.Some? && p.take.Some? ==> NoBetter(p.trade.side, p.stop.value, p.take.value)
    requires p.trade.liquidation.Some? && p.take.Some? && (p.trade.side.Long? ==> p.trade.liquidation.value > 0.0) ==>
      NoBetter(p.trade.side, p.trade.liquidation.value, p.take.value)
    ensures TakeIsBeyond(p, high, low)
  {
  }

  /** The order can be lost: a trailing stop is moved by the bar's own high before the bar is resolved, so it
      can pass the take profit, and the bar then exits above a take profit the price had to cross first. The ATR
      was 5, the close before 100, and the bar's own true range of 20 is in it.
    */
  lemma TrailedStopCanPassTake(p: Position, bar: Bar)
    requires p.trade.side.Long? && p.trade.entryPrice == 100.0 && p.trade.liquidation == Some(0.0)
    requires p.stop == Some(95.0) && p.take == Some(110.0) && p.peak == 100.0
    requires bar.high == 120.0 && bar.low == 112.0
    ensures var rules := ExitRules(Some(1.0), 14, Some(2.0), None, Some(1.0), true, None);
      var atr := (5.0 * 13.0 + 20.0) / 14.0;
      var moved := UpdateStops(rules, p, bar, Some(atr));
      && rules.Valid() && moved.stop == Some(120.0 - atr) && moved.take == Some(110.0)
      && HitWithin(moved, bar.high, bar.low) == Some((StopLoss, 120.0 - atr))
      && !TakeIsBeyond(moved, bar.high, bar.low)
  {
  }
}
