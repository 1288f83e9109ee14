/** Two runs of one strategy that differ in initial capital and fee rates, bar by bar. */
module FeesAndCapital {
  import opened Wrappers
  import opened Arithmetic
  import opened Market
  import opened Liquidations
  import opened Engine
  import opened Ledger
  import opened Money

  // --- prices stay non-negative -----------------------------------------------------

  predicate PositivePrices(bars: Bars) {
    forall i :: 0 <= i < |bars| ==> bars[i].open > 0.0 && bars[i].high > 0.0 && bars[i].low > 0.0 && bars[i].close > 0.0
  }

  /** Positive prices, slippage of at most 100%, an ATR that is a range, and a trailing distance that is one. */
  predicate Ordinary(setup: Setup, feed: Feed) {
    && setup.config.Valid() && setup.config.slippageBps <= 10000.0 && setup.rules.Valid()
    && TrailsBehind(setup.rules) && PositivePrices(feed.bars) && PositivePrices(setup.minutes)
    && forall i :: 0 <= i < |feed.atr| && feed.atr[i].Some? ==> feed.atr[i].value >= 0.0
  }

  /** The trailing distance is not negative: the source leaves its sign unchecked. */
  predicate TrailsBehind(rules: ExitRules) {
    rules.trailingAtrMultiple.Some? ==> rules.trailingAtrMultiple.value >= 0.0
  }

  predicate NonNegative(level: Option<real>) {
    level.Some? ==> level.value >= 0.0
  }

  /** No level a position can be closed at by touching it from below lies below zero. */
  predicate SoundPosition(p: Position) {
    && p.trade.entryPrice >= 0.0 && p.peak >= 0.0 && p.distance >= 0.0 && p.trade.quantity >= 0.0
    && NonNegative(p.trade.liquidation)
    && if p.trade.side.Long? then NonNegative(p.take) else NonNegative(p.stop)
  }

  lemma SlipNonNegative(price: real, bps: real, buying: bool)
    requires price >= 0.0 && 0.0 <= bps <= 10000.0
    ensures Slip(price, bps, buying) >= 0.0
  {
    var factor := 1.0 + bps / 10000.0 * (if buying then 1.0 else -1.0);
    assert factor >= 0.0;
    if price > 0.0 { PositiveProduct(price, factor); }
  }

  lemma ProductSign(x: real, y: real)
    requires x >= 0.0 && y >= 0.0
    ensures x * y >= 0.0
  {
  }

  lemma QuotientSign(x: real, y: real)
    requires x >= 0.0 && y > 0.0
    ensures x / y >= 0.0
  {
  }

  lemma OpenIsSound(rules: ExitRules, config: Config, side: Side, i: nat, time: int, price: real, equity: real,
                    atr: Option<real>)
    requires rules.Valid() && config.Valid() && config.slippageBps <= 10000.0 && price > 0.0 && equity > 0.0
    requires atr.Some? ==> atr.value >= 0.0
    ensures SoundPosition(Open(rules, config, side, i, time, price, equity, atr))
    ensures equity * (config.marginPercent / 100.0) * config.leverage >= 0.0
  {
    OpenUnfolds(config, side, i, time, price, equity);
    SlipNonNegative(price, config.slippageBps, side.Long?);
    var fill, margin := Slip(price, config.slippageBps, side.Long?), equity * (config.marginPercent / 100.0);
    ProductSign(equity, config.marginPercent / 100.0);
    ProductSign(margin, config.leverage);
    if fill > 0.0 { QuotientSign(margin * config.leverage, fill); }
    hide OpenTrade, Slip, Room, NextFundingAfter, WithLevels, StopDistance;
    if atr.Some? && rules.atrStopMultiple.Some? {
      DistanceNonNegative(rules, atr.value);
      var trade := OpenTrade(config, side, i, time, price, equity);
      var p := Position(trade, None, None, 0.0, false, NextFundingAfter(time), trade.entryPrice);
      LevelsAreSound(rules, p, StopDistance(rules, atr.value));
    }
  }

  lemma DistanceNonNegative(rules: ExitRules, atr: real)
    requires rules.Valid() && rules.atrStopMultiple.Some? && atr >= 0.0
    ensures StopDistance(rules, atr) >= 0.0
  {
    ProductSign(atr, rules.atrStopMultiple.value);
  }

  lemma LevelsAreSound(rules: ExitRules, p: Position, distance: real)
    requires SoundPosition(p) && distance >= 0.0 && rules.Valid()
    ensures SoundPosition(WithLevels(rules, p, distance))
  {
    if rules.takeProfitR.Some? { ProductSign(distance, rules.takeProfitR.value); }
  }

  lemma StopsStaySound(rules: ExitRules, p: Position, bar: Bar, atr: Option<real>)
    requires SoundPosition(p) && bar.low > 0.0 && (atr.Some? ==> atr.value >= 0.0)
    requires TrailsBehind(rules)
    ensures SoundPosition(UpdateStops(rules, p, bar, atr))
  {
    if atr.Some? && rules.trailingAtrMultiple.Some? { ProductSign(atr.value, rules.trailingAtrMultiple.value); }
  }

  lemma HitIsNonNegative(p: Position, high: real, low: real)
    requires SoundPosition(p) && high > 0.0 && low > 0.0
    ensures var h := HitWithin(p, high, low); h.Some? ==> h.value.1 >= 0.0
  {
  }

  lemma {:induction false} WalkIsNonNegative(p: Position, fine: Bars)
    requires SoundPosition(p) && PositivePrices(fine)
    ensures WalkMinutes(p, fine).Some? ==> WalkMinutes(p, fine).value.1 >= 0.0
  {
    hide HitWithin, SoundPosition;
    if |fine| > 0 {
      HitIsNonNegative(p, fine[0].high, fine[0].low);
      WalkIsNonNegative(p, fine[1..]);
    }
  }

  lemma ResolveIsNonNegative(minutes: Bars, p: Position, high: real, low: real, start: int, end: int)
    requires SoundPosition(p) && high > 0.0 && low > 0.0 && PositivePrices(minutes)
    ensures var h := Resolve(minutes, p, high, low, start, end); h.Some? ==> h.value.1 >= 0.0
  {
    WalkIsNonNegative(p, MinuteSlice(minutes, start, end));
    HitIsNonNegative(p, high, low);
    hide HitWithin, WalkMinutes, SoundPosition;
  }

  lemma {:induction false} HoldingStaysSound(setup: Setup, p: Position, start: int, end: int, bar: Bar)
    requires SoundPosition(p)
    ensures SoundPosition(Excursion(Accrue(setup, p, start, end, bar.close), bar.high, bar.low))
    decreases end - p.nextFunding
  {
    if setup.config.applyFunding && p.nextFunding < end {
      SettleStaysSound(setup, p, start, bar.close);
      HoldingStaysSound(setup, Settle(setup, p, start, bar.close), start, end, bar);
    }
  }

  lemma SettleStaysSound(setup: Setup, p: Position, start: int, price: real)
    requires SoundPosition(p)
    ensures SoundPosition(Settle(setup, p, start, price))
    ensures Settle(setup, p, start, price).nextFunding == p.nextFunding + FUNDING_INTERVAL_MS
  {
  }

  // --- two runs side by side ----------------------------------------------------------

  /** How the second run's fees compare: the same rates, or rates at least as high. */
  datatype Fees = SameFees | HigherFees

  predicate RatesCompare(f: Fees, a: Config, b: Config) {
    if f.SameFees? then a.EntryFeeRate() == b.EntryFeeRate() && a.ExitFeeRate() == b.ExitFeeRate()
    else a.EntryFeeRate() <= b.EntryFeeRate() && a.ExitFeeRate() <= b.ExitFeeRate()
  }

  predicate Twins(x: Setup, y: Setup, f: Fees) {
    && x.rules == y.rules && x.funding == y.funding && x.minutes == y.minutes
    && SameMarket(x.config, y.config) && RatesCompare(f, x.config, y.config)
  }

  predicate PositionsCompare(f: Fees, c: real, p: Position, q: Position) {
    && SamePosition(c, p, q)
    && if f.SameFees? then q.trade.entryFee == c * p.trade.entryFee
       else q.trade.entryFee >= c * p.trade.entryFee && SoundPosition(p)
  }

  /** Everything the run reports in money is c times as much. */
  predicate MoneyScales(c: real, s: State, t: State) {
    && |s.path| == |t.path| && |s.trades| == |t.trades|
    && (forall j :: 0 <= j < |s.path| ==> t.path[j] == c * s.path[j])
    && (forall j :: 0 <= j < |s.trades| ==> t.trades[j].equityAfter == c * s.trades[j].equityAfter)
  }

  /** The second account is c times the first, with the same trades done, the same signal queued, and the
      same position held at c times the size.
    */
  predicate Compare(f: Fees, c: real, s: State, t: State) {
    && c > 0.0 && t.equity == c * s.equity && s.pending == t.pending && SameLegs(s.trades, t.trades)
    && (if f.SameFees? then MoneyScales(c, s, t) else s.equity > 0.0)
    && (s.position.Some? <==> t.position.Some?)
    && (s.position.Some? ==> PositionsCompare(f, c, s.position.value, t.position.value))
  }

  /** The levels of a fresh position hang on the fill and the ATR alone. */
  lemma OpenFollowsTrade(rules: ExitRules, a: Config, b: Config, side: Side, i: nat, time: int, price: real,
                         equity: real, equity': real, c: real, atr: Option<real>)
    requires SameTrade(c, OpenTrade(a, side, i, time, price, equity), OpenTrade(b, side, i, time, price, equity'))
    ensures SamePosition(c, Open(rules, a, side, i, time, price, equity, atr), Open(rules, b, side, i, time, price, equity', atr))
    ensures Open(rules, a, side, i, time, price, equity, atr).trade == OpenTrade(a, side, i, time, price, equity)
    ensures Open(rules, b, side, i, time, price, equity', atr).trade == OpenTrade(b, side, i, time, price, equity')
  {
    hide OpenTrade, Away, NextFundingAfter;
  }

  lemma EntryFeesCompare(f: Fees, c: real, notional: real, a: real, b: real)
    requires c > 0.0 && (if f.SameFees? then a == b else a <= b && notional >= 0.0)
    ensures if f.SameFees? then c * notional * b == c * (notional * a) else c * notional * b >= c * (notional * a)
  {
    ScaledProduct(c, notional, a);
    if f.HigherFees? {
      PositiveProductOf(c, notional);
      RateCosts(c * notional, a, b);
    }
  }

  lemma OpenCompares(x: Setup, y: Setup, f: Fees, side: Side, i: nat, time: int, price: real, equity: real, c: real,
                     atr: Option<real>, equity': real)
    requires Twins(x, y, f) && c > 0.0 && equity' == c * equity
    requires f.HigherFees? ==>
      x.rules.Valid() && x.config.Valid() && x.config.slippageBps <= 10000.0 && price > 0.0 && equity > 0.0 && (atr.Some? ==> atr.value >= 0.0)
    ensures PositionsCompare(f, c, Open(x.rules, x.config, side, i, time, price, equity, atr),
                             Open(y.rules, y.config, side, i, time, price, equity', atr))
  {
    hide OpenTrade, Open, SamePosition, SameTrade, SoundPosition;
    OpenScales(x.config, y.config, side, i, time, price, equity, c);
    OpenFollowsTrade(x.rules, x.config, y.config, side, i, time, price, equity, equity', c, atr);
    var notional := equity * (x.config.marginPercent / 100.0) * x.config.leverage;
    if f.HigherFees? { OpenIsSound(x.rules, x.config, side, i, time, price, equity, atr); }
    EntryFeesCompare(f, c, notional, x.config.EntryFeeRate(), y.config.EntryFeeRate());
  }

  lemma PositiveProductOf(c: real, x: real)
    requires c > 0.0 && x >= 0.0
    ensures c * x >= 0.0
  {
  }

  lemma HoldingCompares(x: Setup, y: Setup, f: Fees, c: real, p: Position, q: Position, start: int, end: int, bar: Bar)
    requires Twins(x, y, f) && PositionsCompare(f, c, p, q)
    ensures PositionsCompare(f, c, Excursion(Accrue(x, p, start, end, bar.close), bar.high, bar.low),
                             Excursion(Accrue(y, q, start, end, bar.close), bar.high, bar.low))
  {
    AccrueScales(x, y, c, p, q, start, end, bar.close);
    if f.HigherFees? { HoldingStaysSound(x, p, start, end, bar); }
    ExcursionCompares(f, c, Accrue(x, p, start, end, bar.close), Accrue(y, q, start, end, bar.close), bar);
    hide Accrue, Excursion, SamePosition, SoundPosition;
  }

  lemma ExcursionCompares(f: Fees, c: real, p: Position, q: Position, bar: Bar)
    requires SamePosition(c, p, q)
    ensures var p', q' := Excursion(p, bar.high, bar.low), Excursion(q, bar.high, bar.low);
      SamePosition(c, p', q') && p'.trade.entryFee == p.trade.entryFee && q'.trade.entryFee == q.trade.entryFee
  {
  }

  lemma StopsCompare(x: Setup, y: Setup, f: Fees, c: real, p: Position, q: Position, bar: Bar, atr: Option<real>)
    requires Twins(x, y, f) && PositionsCompare(f, c, p, q)
    requires f.HigherFees? ==> bar.low > 0.0 && (atr.Some? ==> atr.value >= 0.0) && TrailsBehind(x.rules)
    ensures PositionsCompare(f, c, UpdateStops(x.rules, p, bar, atr), UpdateStops(y.rules, q, bar, atr))
  {
    StopsAgree(x.rules, c, p, q, bar, atr);
    StopsKeepTrade(x.rules, p, bar, atr);
    StopsKeepTrade(x.rules, q, bar, atr);
    if f.HigherFees? { StopsStaySound(x.rules, p, bar, atr); }
    hide UpdateStops, SamePosition, SoundPosition;
  }

  // --- closing ------------------------------------------------------------------------

  lemma NetCompares(f: Fees, a: Config, b: Config, c: real, x: Trade, y: Trade, price: real, reason: ExitReason)
    requires SameMarket(a, b) && RatesCompare(f, a, b) && c > 0.0 && SameTrade(c, x, y)
    requires if f.SameFees? then y.entryFee == c * x.entryFee
             else y.entryFee >= c * x.entryFee && x.quantity >= 0.0 && price >= 0.0 && 0.0 <= a.slippageBps <= 10000.0
    ensures ExitFill(b, y, price, reason) == ExitFill(a, x, price, reason)
    ensures var net, net' := NetOf(a, x, ExitFill(a, x, price, reason)), NetOf(b, y, ExitFill(a, x, price, reason));
      if f.SameFees? then net' == c * net else net' <= c * net
  {
    hide NetOf, Slip;
    var fill := ExitFill(a, x, price, reason);
    if f.SameFees? {
      NetScales(a, b, c, x, y, fill);
    } else {
      SlipNonNegative(price, a.slippageBps, x.side.Short?);
      NetCosts(a, b, c, x, y, fill);
    }
  }

  lemma SettledCompares(f: Fees, a: Config, b: Config, c: real, x: Trade, y: Trade, price: real, reason: ExitReason,
                        equity: real, equity': real)
    requires SameMarket(a, b) && RatesCompare(f, a, b) && c > 0.0 && SameTrade(c, x, y) && equity' == c * equity
    requires if f.SameFees? then y.entryFee == c * x.entryFee
             else y.entryFee >= c * x.entryFee && x.quantity >= 0.0 && price >= 0.0 && 0.0 <= a.slippageBps <= 10000.0
    ensures if f.SameFees? then Settled(b, y, price, reason, equity') == c * Settled(a, x, price, reason, equity)
            else Settled(b, y, price, reason, equity') <= c * Settled(a, x, price, reason, equity)
  {
    hide NetOf, ExitFill;
    NetCompares(f, a, b, c, x, y, price, reason);
    var fill := ExitFill(a, x, price, reason);
    FloorScales(c, NetOf(a, x, fill), NetOf(b, y, fill), if a.cross then equity else x.margin, if b.cross then equity' else y.margin);
  }

  /** The ratio of two positive accounts. */
  function Ratio(a: real, b: real): (c: real)
    requires a > 0.0 && b > 0.0
    ensures c > 0.0 && b == c * a
  {
    QuotientSign(b, a);
    PositiveQuotient(b, a);
    b / a
  }

  lemma PositiveQuotient(x: real, y: real)
    requires x > 0.0 && y > 0.0
    ensures x / y > 0.0 && (x / y) * y == x
  {
  }

  lemma LowerRatio(c: real, a: real, b: real)
    requires c > 0.0 && 0.0 < b <= c * a
    ensures a > 0.0 && b / a <= c
  {
    PositiveProduct(c, a);
    PositiveQuotient(b, a);
    ScaleOrder(b / a, c, a);
  }

  /** Closing the same trade in both accounts leaves them comparable, the second no better off than before. */
  lemma CloseCompares(x: Setup, y: Setup, f: Fees, c: real, s: State, t: State, index: int, time: int, price: real,
                      reason: ExitReason) returns (c': real)
    requires Twins(x, y, f) && Compare(f, c, s, t) && s.position.Some?
    requires f.HigherFees? ==> price >= 0.0 && 0.0 <= x.config.slippageBps <= 10000.0
    requires var u := Close(y.config, t.position.value.trade, index, time, price, reason, t.equity);
      f.HigherFees? ==> u.equityAfter > 0.0
    ensures var s' := CloseInto(s, Close(x.config, s.position.value.trade, index, time, price, reason, s.equity));
      var t' := CloseInto(t, Close(y.config, t.position.value.trade, index, time, price, reason, t.equity));
      Compare(f, c', s', t')
    ensures c' <= c && (f.SameFees? ==> c' == c)
  {
    hide Settled, SoundPosition, Close;
    var p, q := s.position.value.trade, t.position.value.trade;
    CloseUnfolds(x.config, p, index, time, price, reason, s.equity);
    CloseUnfolds(y.config, q, index, time, price, reason, t.equity);
    SoundQuantity(f, c, s.position.value, t.position.value);
    SettledCompares(f, x.config, y.config, c, p, q, price, reason, s.equity, t.equity);
    var net, net' := Settled(x.config, p, price, reason, s.equity), Settled(y.config, q, price, reason, t.equity);
    assert c * (s.equity + net) == c * s.equity + c * net;
    if f.SameFees? {
      c' := c;
    } else {
      LowerRatio(c, s.equity + net, t.equity + net');
      c' := Ratio(s.equity + net, t.equity + net');
    }
  }

  lemma SoundQuantity(f: Fees, c: real, p: Position, q: Position)
    requires PositionsCompare(f, c, p, q)
    ensures SameTrade(c, p.trade, q.trade) && (f.HigherFees? ==> p.trade.quantity >= 0.0)
  {
  }

  // --- one bar ------------------------------------------------------------------------

  predicate Solvent(trades: seq<Trade>) {
    forall j :: 0 <= j < |trades| ==> trades[j].equityAfter > 0.0
  }

  lemma ResolveAgrees(c: real, minutes: Bars, p: Position, q: Position, high: real, low: real, start: int, end: int)
    requires SamePosition(c, p, q)
    ensures Resolve(minutes, p, high, low, start, end) == Resolve(minutes, q, high, low, start, end)
  {
    HitsAgree(c, p, q, high, low);
    WalksAgree(c, p, q, MinuteSlice(minutes, start, end));
    hide HitWithin, WalkMinutes, SamePosition, MinuteSlice;
  }

  lemma FillCompares(x: Setup, y: Setup, feed: Feed, f: Fees, i: nat, c: real, s: State, t: State)
    requires Twins(x, y, f) && Compare(f, c, s, t) && feed.Aligned() && i < |feed.bars|
    requires f.HigherFees? ==> Ordinary(x, feed)
    ensures Compare(f, c, Fill(x, feed, i, s), Fill(y, feed, i, t))
  {
    hide Open, SamePosition, SoundPosition, SameLegs, MoneyScales;
    if s.pending.Some? && s.position.None? {
      var atr := if i > 0 then feed.atr[i - 1] else None;
      OpenCompares(x, y, f, s.pending.value, i, feed.bars[i].time, feed.bars[i].open, s.equity, c, atr, t.equity);
      PathsUntouched(c, s, t, Fill(x, feed, i, s), Fill(y, feed, i, t));
    }
  }

  lemma PathsUntouched(c: real, s: State, t: State, s': State, t': State)
    requires s.path == s'.path && t.path == t'.path && s.trades == s'.trades && t.trades == t'.trades
    ensures MoneyScales(c, s, t) ==> MoneyScales(c, s', t')
  {
  }

  lemma ManageCompares(x: Setup, y: Setup, feed: Feed, f: Fees, i: nat, c: real, s: State, t: State) returns (c': real)
    requires Twins(x, y, f) && Compare(f, c, s, t) && feed.Aligned() && i < |feed.bars|
    requires f.HigherFees? ==> Ordinary(x, feed) && Solvent(Manage(y, feed, i, t).trades)
    ensures Compare(f, c', Manage(x, feed, i, s), Manage(y, feed, i, t))
    ensures c' <= c && (f.SameFees? ==> c' == c)
  {
    hide UpdateStops, Resolve, Accrue, Excursion, Close, SamePosition, SoundPosition, SameLegs, MoneyScales;
    c' := c;
    if s.position.Some? {
      var bar, end, p0, q0 := feed.bars[i], BarEnd(feed.bars, i), s.position.value, t.position.value;
      StopsCompare(x, y, f, c, p0, q0, bar, feed.atr[i]);
      StopsKeepTrade(x.rules, p0, bar, feed.atr[i]);
      StopsKeepTrade(x.rules, q0, bar, feed.atr[i]);
      var p, q := UpdateStops(x.rules, p0, bar, feed.atr[i]), UpdateStops(x.rules, q0, bar, feed.atr[i]);
      ResolveAgrees(c, x.minutes, p, q, bar.high, bar.low, bar.time, end);
      var hit := Resolve(x.minutes, p, bar.high, bar.low, bar.time, end);
      if hit.Some? {
        if f.HigherFees? { ResolveIsNonNegative(x.minutes, p, bar.high, bar.low, bar.time, end); }
        LastIsSolvent(t, Close(y.config, q0.trade, i, bar.time, hit.value.1, hit.value.0, t.equity));
        c' := CloseCompares(x, y, f, c, s, t, i, bar.time, hit.value.1, hit.value.0);
      } else {
        HoldingCompares(x, y, f, c, p, q, bar.time, end, bar);
        PathsUntouched(c, s, t, Manage(x, feed, i, s), Manage(y, feed, i, t));
      }
    }
  }

  lemma LastIsSolvent(t: State, u: Trade)
    ensures Solvent(CloseInto(t, u).trades) ==> u.equityAfter > 0.0
  {
    assert CloseInto(t, u).trades[|t.trades|] == u;
  }

  lemma SignalCompares(x: Setup, y: Setup, feed: Feed, f: Fees, i: nat, c: real, s: State, t: State) returns (c': real)
    requires Twins(x, y, f) && Compare(f, c, s, t) && feed.Aligned() && i < |feed.bars|
    requires f.HigherFees? ==> Ordinary(x, feed) && Solvent(Signal(y, feed, i, t).trades)
    ensures Compare(f, c', Signal(x, feed, i, s), Signal(y, feed, i, t))
    ensures c' <= c && (f.SameFees? ==> c' == c)
  {
    hide Close, SoundPosition, SameLegs, MoneyScales;
    c' := c;
    if s.position.Some? {
      var p, q := s.position.value.trade, t.position.value.trade;
      var reason := SignalExit(x.rules, p, i, feed.longs[i], feed.shorts[i]);
      assert SignalExit(y.rules, q, i, feed.longs[i], feed.shorts[i]) == reason;
      if reason.Some? && i + 1 < |feed.bars| {
        var next := feed.bars[i + 1];
        var u, v := Close(x.config, p, i + 1, next.time, next.open, reason.value, s.equity),
                    Close(y.config, q, i + 1, next.time, next.open, reason.value, t.equity);
        LastIsSolvent(t, v);
        c' := CloseCompares(x, y, f, c, s, t, i + 1, next.time, next.open, reason.value);
        PathsUntouched(c', CloseInto(s, u), CloseInto(t, v), Signal(x, feed, i, s), Signal(y, feed, i, t));
      }
    } else {
      PathsUntouched(c, s, t, Signal(x, feed, i, s), Signal(y, feed, i, t));
    }
  }

  lemma UnrealisedScales(c: real, p: Trade, q: Trade, price: real)
    requires SameTrade(c, p, q)
    ensures Unrealised(q, price) == c * Unrealised(p, price)
  {
    ScaledProduct(c, price - p.entryPrice, p.quantity);
    ScaledProduct(c, (price - p.entryPrice) * p.quantity, Direction(p.side));
    hide Direction;
  }

  lemma MarkCompares(feed: Feed, f: Fees, i: nat, c: real, s: State, t: State)
    requires Compare(f, c, s, t) && i < |feed.bars|
    ensures Compare(f, c, Mark(feed, i, s), Mark(feed, i, t))
  {
    hide Unrealised, SameLegs, SoundPosition;
    var price := feed.bars[i].close;
    if s.position.Some? {
      UnrealisedScales(c, s.position.value.trade, t.position.value.trade, price);
      var open := Unrealised(s.position.value.trade, price);
      assert c * (s.equity + open) == c * s.equity + c * open;
    }
  }

  // --- the whole run ------------------------------------------------------------------

  /** Trades are only ever added. */
  lemma PhasesGrow(setup: Setup, feed: Feed, i: nat, s: State)
    requires feed.Aligned() && i < |feed.bars|
    ensures s.trades <= Fill(setup, feed, i, s).trades && s.trades <= Manage(setup, feed, i, s).trades
    ensures s.trades <= Signal(setup, feed, i, s).trades && s.trades <= Mark(feed, i, s).trades
  {
    hide Open, Close, UpdateStops, Resolve, Accrue, Excursion, SignalExit, Unrealised;
  }

  lemma SolventPrefix(a: seq<Trade>, b: seq<Trade>)
    requires a <= b && Solvent(b)
    ensures Solvent(a)
  {
    forall j | 0 <= j < |a| ensures a[j].equityAfter > 0.0 { assert a[j] == b[j]; }
  }

  lemma StepGrows(setup: Setup, feed: Feed, i: nat, s: State)
    requires feed.Aligned() && i < |feed.bars|
    ensures s.trades <= Step(setup, feed, i, s).trades
  {
    hide Fill, Manage, Signal, Mark;
    var filled := Fill(setup, feed, i, s);
    var managed := Manage(setup, feed, i, filled);
    PhasesGrow(setup, feed, i, s);
    PhasesGrow(setup, feed, i, filled);
    PhasesGrow(setup, feed, i, managed);
    PhasesGrow(setup, feed, i, Signal(setup, feed, i, managed));
  }

  lemma StepCompares(x: Setup, y: Setup, feed: Feed, f: Fees, i: nat, c: real, s: State, t: State) returns (c': real)
    requires Twins(x, y, f) && Compare(f, c, s, t) && feed.Aligned() && i < |feed.bars|
    requires f.HigherFees? ==> Ordinary(x, feed) && Solvent(Step(y, feed, i, t).trades)
    ensures Compare(f, c', Step(x, feed, i, s), Step(y, feed, i, t))
    ensures c' <= c && (f.SameFees? ==> c' == c)
  {
    hide Fill, Manage, Signal, Mark, Compare, Twins, Ordinary, Solvent;
    var s1, t1 := Fill(x, feed, i, s), Fill(y, feed, i, t);
    FillCompares(x, y, feed, f, i, c, s, t);
    var t2 := Manage(y, feed, i, t1);
    var t3 := Signal(y, feed, i, t2);
    PhasesGrow(y, feed, i, t2);
    PhasesGrow(y, feed, i, t3);
    if f.HigherFees? {
      SolventPrefix(t3.trades, Step(y, feed, i, t).trades);
      SolventPrefix(t2.trades, t3.trades);
    }
    var c2 := ManageCompares(x, y, feed, f, i, c, s1, t1);
    var s2 := Manage(x, feed, i, s1);
    c' := SignalCompares(x, y, feed, f, i, c2, s2, t2);
    MarkCompares(feed, f, i, c', Signal(x, feed, i, s2), t3);
  }

  lemma {:induction false} RunsCompare(x: Setup, y: Setup, feed: Feed, f: Fees, k: nat) returns (c: real)
    requires Twins(x, y, f) && feed.Aligned() && k <= |feed.bars|
    requires x.config.initialCapital > 0.0 && y.config.initialCapital > 0.0
    requires f.HigherFees? ==> Ordinary(x, feed) && Solvent(After(y, feed, k).trades)
    ensures Compare(f, c, After(x, feed, k), After(y, feed, k))
    ensures var c0 := y.config.initialCapital / x.config.initialCapital; c <= c0 && (f.SameFees? ==> c == c0)
  {
    hide Step, Twins, Ordinary, Solvent;
    if k == 0 {
      PositiveQuotient(y.config.initialCapital, x.config.initialCapital);
      c := y.config.initialCapital / x.config.initialCapital;
    } else {
      hide Compare;
      StepGrows(y, feed, k - 1, After(y, feed, k - 1));
      if f.HigherFees? { SolventPrefix(After(y, feed, k - 1).trades, After(y, feed, k).trades); }
      var c1 := RunsCompare(x, y, feed, f, k - 1);
      c := StepCompares(x, y, feed, f, k - 1, c1, After(x, feed, k - 1), After(y, feed, k - 1));
    }
  }

  lemma FinishCompares(x: Setup, y: Setup, feed: Feed, f: Fees, c: real, s: State, t: State) returns (c': real)
    requires Twins(x, y, f) && Compare(f, c, s, t) && |feed.bars| > 0 && |s.path| == |t.path| == |feed.bars|
    requires f.HigherFees? ==> Ordinary(x, feed) && Solvent(Finish(y, feed, t).trades)
    ensures Compare(f, c', Finish(x, feed, s), Finish(y, feed, t))
    ensures c' <= c && (f.SameFees? ==> c' == c)
  {
    hide Close, SoundPosition, SameLegs, SamePosition;
    c' := c;
    if s.position.Some? {
      var last := |feed.bars| - 1;
      var bar := feed.bars[last];
      LastIsSolvent(t, Close(y.config, t.position.value.trade, last, bar.time, bar.close, EndOfData, t.equity));
      c' := CloseCompares(x, y, f, c, s, t, last, bar.time, bar.close, EndOfData);
    }
  }

  lemma FinishGrows(setup: Setup, feed: Feed, s: State)
    requires |feed.bars| > 0 && |s.path| == |feed.bars|
    ensures s.trades <= Finish(setup, feed, s).trades
  {
    hide Close;
  }

  lemma WholeRunsCompare(x: Setup, y: Setup, feed: Feed, f: Fees) returns (c: real)
    requires Twins(x, y, f) && feed.Aligned() && |feed.bars| > 0
    requires x.config.initialCapital > 0.0 && y.config.initialCapital > 0.0
    requires f.HigherFees? ==> Ordinary(x, feed) && Solvent(Run(y, feed).trades)
    ensures Compare(f, c, Run(x, feed), Run(y, feed))
    ensures var c0 := y.config.initialCapital / x.config.initialCapital; c <= c0 && (f.SameFees? ==> c == c0)
  {
    hide Finish, After, Twins, Ordinary, Solvent, Compare;
    var n := |feed.bars|;
    PathLength(x, feed, n);
    PathLength(y, feed, n);
    FinishGrows(y, feed, After(y, feed, n));
    if f.HigherFees? { SolventPrefix(After(y, feed, n).trades, Run(y, feed).trades); }
    var c1 := RunsCompare(x, y, feed, f, n);
    c := FinishCompares(x, y, feed, f, c1, After(x, feed, n), After(y, feed, n));
  }

  /** The schedule of a run does not depend on the capital, and every figure of the account is in proportion
      to it: the equity at each bar, after each trade, and at the end.
    */
  lemma CapitalScales(x: Setup, y: Setup, feed: Feed)
    requires Twins(x, y, SameFees) && feed.Aligned() && |feed.bars| > 0
    requires x.config.initialCapital > 0.0 && y.config.initialCapital > 0.0
    ensures SameLegs(Run(x, feed).trades, Run(y, feed).trades)
    ensures var c := y.config.initialCapital / x.config.initialCapital;
      Run(y, feed).equity == c * Run(x, feed).equity && MoneyScales(c, Run(x, feed), Run(y, feed))
  {
    hide Run, Twins, SameLegs, MoneyScales;
    var c := WholeRunsCompare(x, y, feed, SameFees);
  }

  /** Fees only cost. As long as the dearer account stays above zero after each of its trades, higher fee
      rates change no trade's entry, exit, price or reason, and leave the account, per unit of initial
      capital, no better off.
    */
  lemma FeesOnlyCost(x: Setup, y: Setup, feed: Feed)
    requires Twins(x, y, HigherFees) && feed.Aligned() && |feed.bars| > 0 && Ordinary(x, feed)
    requires y.config.initialCapital > 0.0 && Solvent(Run(y, feed).trades)
    ensures SameLegs(Run(x, feed).trades, Run(y, feed).trades)
    ensures Run(y, feed).equity / y.config.initialCapital <= Run(x, feed).equity / x.config.initialCapital
  {
    hide Run, Twins, SameLegs, Solvent;
    var c := WholeRunsCompare(x, y, feed, HigherFees);
    ProportionsCompare(c, x.config.initialCapital, y.config.initialCapital, Run(x, feed).equity);
  }

  lemma ProportionsCompare(c: real, a: real, b: real, equity: real)
    requires a > 0.0 && b > 0.0 && equity > 0.0 && c <= b / a
    ensures (c * equity) / b <= equity / a
  {
    PositiveQuotient(b, a);
    PositiveQuotient(equity, a);
    var e := equity / a;
    ScaleOrder(c, b / a, equity);
    assert (b / a) * equity == (b / a) * a * e == b * e;
    ScaleOrder((c * equity) / b, e, b);
    DivideBack(c * equity, b);
  }

  /** Above zero is needed: an account at or below zero still opens positions, of no or negative size, whose
      liquidation price is recorded as 0; a short of that kind is closed within its first bar, at price 0.
    */
  lemma BrokeShortIsLiquidatedAtOnce(setup: Setup, feed: Feed, i: nat, s: State)
    requires Ordinary(setup, feed) && feed.Aligned() && i < |feed.bars|
    requires s.equity <= 0.0 && s.position.None? && s.pending == Some(Short)
    ensures var after := Manage(setup, feed, i, Fill(setup, feed, i, s));
      && after.position.None? && |after.trades| == |s.trades| + 1
      && after.trades[|s.trades|].reason == Liquidation && after.trades[|s.trades|].exitPrice == 0.0
  {
    hide Slip, UpdateStops, Resolve, Ordinary, NextFundingAfter, LiquidationPrice;
    var bar, end := feed.bars[i], BarEnd(feed.bars, i);
    var filled := Fill(setup, feed, i, s);
    var p := filled.position.value;
    BrokeSize(setup, feed, s.equity, Slip(bar.open, setup.config.slippageBps, false));
    StopsKeepTrade(setup.rules, p, bar, feed.atr[i]);
    TouchedAtZero(setup, feed, i, UpdateStops(setup.rules, p, bar, feed.atr[i]), end);
  }

  lemma BrokeSize(setup: Setup, feed: Feed, equity: real, fill: real)
    requires Ordinary(setup, feed) && equity <= 0.0
    ensures fill > 0.0 ==> equity * (setup.config.marginPercent / 100.0) * setup.config.leverage / fill <= 0.0
  {
    hide PositivePrices;
    var share, leverage := setup.config.marginPercent / 100.0, setup.config.leverage;
    ProductSign(-equity, share);
    ProductSign(-equity * share, leverage);
    if fill > 0.0 {
      QuotientSign(-equity * share * leverage, fill);
      assert -equity * share * leverage == -(equity * share * leverage);
      ScaledQuotient(-1.0, equity * share * leverage, fill);
    }
  }

  lemma TouchedAtZero(setup: Setup, feed: Feed, i: nat, p: Position, end: int)
    requires Ordinary(setup, feed) && i < |feed.bars| && p.trade.side.Short? && p.trade.liquidation == Some(0.0)
    ensures var bar := feed.bars[i];
      Resolve(setup.minutes, p, bar.high, bar.low, bar.time, end) == Some((Liquidation, 0.0))
  {
    var fine := MinuteSlice(setup.minutes, feed.bars[i].time, end);
    if |fine| > 0 { assert fine[0] in setup.minutes; }
  }
}
