/** What opening, holding and closing a position come to, in plain arithmetic for either side
    (packages/engine/quanta_engine/backtest/engine.py).
  */
module Levels {
  import opened Wrappers
  import opened Market
  import opened Liquidations
  import opened Engine

  // --- opening --------------------------------------------------------------

  /** A fill pays the slippage: a buyer the more, a seller the less. */
  predicate FilledAt(fill: real, price: real, bps: real, buying: bool) {
    10000.0 * fill == price * (if buying then 10000.0 + bps else 10000.0 - bps)
  }

  lemma SlipFills(price: real, bps: real, buying: bool)
    ensures FilledAt(Slip(price, bps, buying), price, bps, buying)
  {
    var part := bps / 10000.0;
    assert part * 10000.0 == bps;
    if buying { Spelled(price, part, 1.0); } else { Spelled(price, part, -1.0); }
  }

  lemma Spelled(price: real, part: real, sign: real)
    ensures 10000.0 * (price * (1.0 + part * sign)) == price * (10000.0 + (part * 10000.0) * sign)
  {
    assert 10000.0 * (price * (1.0 + part * sign)) == price * (10000.0 * (1.0 + part * sign));
  }

  /** The share of the account put up, what it is worth with the leverage, and the fee on that. */
  predicate SizedBy(t: Trade, config: Config, equity: real) {
    && 100.0 * t.margin == equity * config.marginPercent
    && t.leverage == config.leverage
    && (if t.entryPrice > 0.0 then t.quantity * t.entryPrice == t.margin * config.leverage else t.quantity == 0.0)
    && t.entryFee == t.margin * config.leverage * (if config.entryIsMaker then config.makerFee else config.takerFee)
  }

  lemma TradeIsSized(config: Config, side: Side, index: nat, time: int, price: real, equity: real)
    ensures var t := OpenTrade(config, side, index, time, price, equity);
      SizedBy(t, config, equity) && FilledAt(t.entryPrice, price, config.slippageBps, side.Long?)
  {
    hide LiquidationPrice;
    SlipFills(price, config.slippageBps, side.Long?);
    var t := OpenTrade(config, side, index, time, price, equity);
    hide Slip;
    Hundredth(equity, config.marginPercent);
    if t.entryPrice > 0.0 { assert t.margin * config.leverage / t.entryPrice * t.entryPrice == t.margin * config.leverage; }
  }

  lemma Hundredth(x: real, percent: real)
    ensures 100.0 * (x * (percent / 100.0)) == x * percent
  {
    var part := percent / 100.0;
    assert part * 100.0 == percent;
    assert 100.0 * (x * part) == x * (part * 100.0);
  }

  /** The first levels of a position: with an ATR and a multiple of it the stop lies that distance against the
      trade and the take profit its multiple of the distance in the trade's favour; without, there are none.
    */
  predicate LevelsSet(p: Position, rules: ExitRules, atr: Option<real>) {
    if rules.atrStopMultiple.None? || atr.None? then p.stop.None? && p.take.None? && p.distance == 0.0
    else
      var entry, distance := p.trade.entryPrice, atr.value * rules.atrStopMultiple.value;
      && p.distance == distance
      && p.stop.Some? && p.stop.value == (if p.trade.side.Long? then entry - distance else entry + distance)
      && (p.take.Some? <==> rules.takeProfitR.Some?)
      && (p.take.Some? ==>
            p.take.value == if p.trade.side.Long? then entry + distance * rules.takeProfitR.value
                            else entry - distance * rules.takeProfitR.value)
  }

  lemma LevelsAreSet(rules: ExitRules, p: Position, atr: real)
    requires rules.atrStopMultiple.Some?
    ensures LevelsSet(WithLevels(rules, p, StopDistance(rules, atr)), rules, Some(atr))
    ensures WithLevels(rules, p, StopDistance(rules, atr)).trade == p.trade
  {
    var d := StopDistance(rules, atr);
    assert d == atr * rules.atrStopMultiple.value;
    assert d * -1.0 == 0.0 - d;
  }

  lemma OpensMean(rules: ExitRules, config: Config, side: Side, index: nat, time: int, price: real, equity: real, atr: Option<real>)
    ensures var p := Open(rules, config, side, index, time, price, equity, atr);
      && p.trade.side == side && p.trade.entryIndex == index && p.trade.entryTime == time
      && FilledAt(p.trade.entryPrice, price, config.slippageBps, side.Long?) && SizedBy(p.trade, config, equity)
      && LevelsSet(p, rules, atr)
      && p.peak == p.trade.entryPrice && !p.armed
      && p.trade.fundingPaid == 0.0 && p.trade.runUp == 0.0 && p.trade.drawdown == 0.0
  {
    TradeIsSized(config, side, index, time, price, equity);
    var trade := OpenTrade(config, side, index, time, price, equity);
    var bare := Position(trade, None, None, 0.0, false, NextFundingAfter(time), trade.entryPrice);
    if rules.atrStopMultiple.Some? && atr.Some? { LevelsAreSet(rules, bare, atr.value); }
    hide Slip, LiquidationPrice, SizedBy, FilledAt, LevelsSet, StopDistance;
    if rules.atrStopMultiple.None? || atr.None? { NoLevels(rules, bare, atr); }
  }

  lemma NoLevels(rules: ExitRules, p: Position, atr: Option<real>)
    requires rules.atrStopMultiple.None? || atr.None?
    requires p.stop.None? && p.take.None? && p.distance == 0.0
    ensures LevelsSet(p, rules, atr)
  {
  }

  // --- closing ----------------------------------------------------------------

  /** What the trade made before costs: bought low and sold high, or the reverse. */
  function Made(t: Trade): real {
    if t.side.Long? then (t.exitPrice - t.entryPrice) * t.quantity else (t.entryPrice - t.exitPrice) * t.quantity
  }

  predicate ClosedFor(c: Trade, config: Config, equity: real) {
    var costs := c.entryFee + c.exitFee + c.fundingPaid;
    && c.grossPnl == Made(c)
    && c.exitFee == c.exitPrice * c.quantity * (if config.exitIsMaker then config.makerFee else config.takerFee)
    && c.equityAfter == equity + c.netPnl
    && (if c.reason.Liquidation? && Made(c) - costs < -(if config.cross then equity else c.margin)
        then c.netPnl == -(if config.cross then equity else c.margin)
        else c.netPnl == Made(c) - costs)
  }

  lemma ClosesMean(config: Config, t: Trade, index: int, time: int, price: real, reason: ExitReason, equity: real)
    ensures var c := Close(config, t, index, time, price, reason, equity);
      && ClosedFor(c, config, equity) && c.exitIndex == index && c.exitTime == time && c.reason == reason
      && (if reason.Liquidation? then c.exitPrice == price
          else FilledAt(c.exitPrice, price, config.slippageBps, t.side.Short?))
      && c.side == t.side && c.entryPrice == t.entryPrice && c.quantity == t.quantity && c.margin == t.margin
      && c.entryFee == t.entryFee && c.fundingPaid == t.fundingPaid && c.entryIndex == t.entryIndex
  {
    SlipFills(price, config.slippageBps, t.side.Short?);
    hide Slip, FilledAt;
    var c := Close(config, t, index, time, price, reason, equity);
    if t.side.Long? {
      assert (c.exitPrice - t.entryPrice) * t.quantity * 1.0 == (c.exitPrice - t.entryPrice) * t.quantity;
    } else {
      assert (c.exitPrice - t.entryPrice) * t.quantity * -1.0 == (t.entryPrice - c.exitPrice) * t.quantity;
    }
  }

  predicate Free(config: Config) {
    config.slippageBps == 0.0 && config.makerFee == 0.0 && config.takerFee == 0.0
  }

  /** The risk taken: without costs, a trade that leaves at its first stop loses its quantity times the distance,
      and one that leaves at its take profit makes R times that.
    */
  lemma StopLosesTheDistance(rules: ExitRules, config: Config, side: Side, index: nat, time: int, price: real, equity: real,
                             atr: real, exitIndex: int, exitTime: int)
    requires Free(config) && rules.atrStopMultiple.Some?
    ensures var p := Open(rules, config, side, index, time, price, equity, Some(atr));
      var risk := p.trade.quantity * (atr * rules.atrStopMultiple.value);
      && p.stop.Some?
      && Close(config, p.trade, exitIndex, exitTime, p.stop.value, StopLoss, equity).netPnl == -risk
      && (rules.takeProfitR.Some? ==>
            && p.take.Some?
            && Close(config, p.trade, exitIndex, exitTime, p.take.value, TakeProfit, equity).netPnl
               == risk * rules.takeProfitR.value)
  {
    OpensMean(rules, config, side, index, time, price, equity, Some(atr));
    var p := Open(rules, config, side, index, time, price, equity, Some(atr));
    hide Open, Close;
    var d, q := atr * rules.atrStopMultiple.value, p.trade.quantity;
    FreeClose(config, p.trade, exitIndex, exitTime, p.stop.value, StopLoss, equity);
    Product(d, q, 1.0);
    if rules.takeProfitR.Some? {
      FreeClose(config, p.trade, exitIndex, exitTime, p.take.value, TakeProfit, equity);
      Product(d, q, rules.takeProfitR.value);
    }
  }

  lemma Product(d: real, q: real, r: real)
    ensures d * r * q == q * d * r && (0.0 - d) * q == 0.0 - q * d
  {
  }

  /** Without costs a trade's net result is the move of the price times the quantity. */
  lemma FreeClose(config: Config, t: Trade, index: int, time: int, price: real, reason: ExitReason, equity: real)
    requires Free(config) && !reason.Liquidation? && t.fundingPaid == 0.0 && t.entryFee == 0.0
    ensures Close(config, t, index, time, price, reason, equity).netPnl ==
      if t.side.Long? then (price - t.entryPrice) * t.quantity else (t.entryPrice - price) * t.quantity
  {
    ClosesMean(config, t, index, time, price, reason, equity);
    hide Close;
  }

  // --- holding ----------------------------------------------------------------

  function Highest(a: real, b: real): real { if a >= b then a else b }
  function Lowest(a: real, b: real): real { if a <= b then a else b }

  /** A bar moves the levels: the best price so far, then break-even once that is far enough past the entry, then
      the trail behind it, which only ever tightens.
    */
  lemma StopsMean(rules: ExitRules, p: Position, bar: Bar, atr: Option<real>)
    ensures var q, long, entry := UpdateStops(rules, p, bar, atr), p.trade.side.Long?, p.trade.entryPrice;
      var arms := rules.breakEvenAtR.Some? && p.distance > 0.0 && !p.armed
        && (if long then q.peak - entry else entry - q.peak) >= p.distance * rules.breakEvenAtR.value;
      var before := if arms then Some(entry) else p.stop;
      && q.peak == (if long then Highest(p.peak, bar.high) else Lowest(p.peak, bar.low))
      && (q.armed <==> p.armed || arms)
      && q.trade == p.trade && q.take == p.take && q.distance == p.distance && q.nextFunding == p.nextFunding
      && (rules.trailingAtrMultiple.None? || atr.None? ==> q.stop == before)
      && (rules.trailingAtrMultiple.Some? && atr.Some? ==>
            var trail := if long then q.peak - atr.value * rules.trailingAtrMultiple.value
                         else q.peak + atr.value * rules.trailingAtrMultiple.value;
            && q.stop.Some?
            && q.stop.value == if before.None? then trail
                               else if long then Highest(before.value, trail) else Lowest(before.value, trail))
  {
    var q := UpdateStops(rules, p, bar, atr);
    assert (q.peak - p.trade.entryPrice) * Direction(p.trade.side) ==
      if p.trade.side.Long? then q.peak - p.trade.entryPrice else p.trade.entryPrice - q.peak;
    if rules.trailingAtrMultiple.Some? && atr.Some? {
      assert atr.value * -rules.trailingAtrMultiple.value == 0.0 - atr.value * rules.trailingAtrMultiple.value;
    }
  }

  /** Trading that reaches a level closes at it: the liquidation price before the stop before the take profit. */
  lemma HitsMean(p: Position, high: real, low: real)
    ensures var long := p.trade.side.Long?;
      var liquidated := p.trade.liquidation.Some? &&
        (if long then p.trade.liquidation.value > 0.0 && low <= p.trade.liquidation.value else high >= p.trade.liquidation.value);
      var stopped := p.stop.Some? && (if long then low <= p.stop.value else high >= p.stop.value);
      var taken := p.take.Some? && (if long then high >= p.take.value else low <= p.take.value);
      HitWithin(p, high, low) ==
        if liquidated then Some((Liquidation, p.trade.liquidation.value))
        else if stopped then Some((StopLoss, p.stop.value))
        else if taken then Some((TakeProfit, p.take.value))
        else None
  {
  }

  /** A long pays a positive rate on what it is worth, and a short receives it. */
  lemma SettlementMeans(setup: Setup, p: Position, start: int, price: real)
    ensures var q := Settle(setup, p, start, price);
      var amount := price * p.trade.quantity * RateAt(setup.funding, p.nextFunding);
      && q.nextFunding == p.nextFunding + 8 * 3_600_000
      && q.trade.fundingPaid - p.trade.fundingPaid ==
         if p.nextFunding < start then 0.0 else if p.trade.side.Long? then amount else 0.0 - amount
  {
  }

  /** The best and worst an open trade has stood at, in money. */
  lemma ExcursionMeans(p: Position, high: real, low: real)
    ensures var q, t := Excursion(p, high, low).trade, p.trade;
      && q.runUp == Highest(t.runUp, if t.side.Long? then (high - t.entryPrice) * t.quantity else (t.entryPrice - low) * t.quantity)
      && q.drawdown == Lowest(t.drawdown, if t.side.Long? then (low - t.entryPrice) * t.quantity else (t.entryPrice - high) * t.quantity)
  {
    var t := p.trade;
    if t.side.Short? {
      assert (high - t.entryPrice) * -1.0 * t.quantity == (t.entryPrice - high) * t.quantity;
      assert (low - t.entryPrice) * -1.0 * t.quantity == (t.entryPrice - low) * t.quantity;
    }
  }

  /** What an open trade would bring at a price. */
  lemma UnrealisedMeans(t: Trade, price: real)
    ensures Unrealised(t, price) == if t.side.Long? then (price - t.entryPrice) * t.quantity else (t.entryPrice - price) * t.quantity
  {
    if t.side.Short? { assert (price - t.entryPrice) * t.quantity * -1.0 == (t.entryPrice - price) * t.quantity; }
  }

  /** A signal ends a trade after its bars are up, before an opposite signal is looked at. */
  lemma SignalExitsMean(rules: ExitRules, t: Trade, index: nat, long: bool, short: bool)
    ensures var timeUp := rules.timeExitBars.Some? && index >= t.entryIndex + rules.timeExitBars.value;
      var turned := rules.exitOnOpposite && (if t.side.Long? then short else long);
      SignalExit(rules, t, index, long, short) ==
        if timeUp then Some(TimeExit) else if turned then Some(OppositeSignal) else None
  {
  }

  // --- liquidation --------------------------------------------------------------

  /** Where margin plus the move of the price equals the tier's share of what the position was worth at the entry,
      less the tier's amount: a long at least at zero, and a short never where even zero is past it.
    */
  lemma LiquidationMeans(entry: real, quantity: real, margin: real, side: Side, tiers: seq<Tier>)
    requires quantity > 0.0 && entry > 0.0
    ensures var tier := TierFor(tiers, entry * quantity);
      var needed := entry * quantity * tier.rate - tier.amount;
      var l := LiquidationPrice(entry, quantity, margin, side, tiers);
      if side.Long? then
        && l.Some? && l.value >= 0.0
        && (l.value > 0.0 ==> margin + (l.value - entry) * quantity == needed)
        && (l.value == 0.0 ==> margin - entry * quantity >= needed)
      else
        && (l.Some? ==> l.value > 0.0 && margin + (entry - l.value) * quantity == needed)
        && (l.None? ==> margin + entry * quantity <= needed)
  {
    assert entry * quantity > 0.0;
    var needed := MaintenanceMargin(tiers, entry * quantity);
    hide MaintenanceMargin, TierFor;
    var room := Room(entry, quantity, margin, tiers);
    assert room * quantity == margin - needed;
    hide Room;
    WhereItIs(entry, quantity, margin, needed, room);
  }

  lemma WhereItIs(entry: real, quantity: real, margin: real, needed: real, room: real)
    requires quantity > 0.0 && room * quantity == margin - needed
    ensures margin + ((entry - room) - entry) * quantity == needed && margin + (entry - (entry + room)) * quantity == needed
    ensures entry - room <= 0.0 ==> margin - entry * quantity >= needed
    ensures entry + room <= 0.0 ==> margin + entry * quantity <= needed
  {
    assert (0.0 - room) * quantity == 0.0 - room * quantity;
    if entry - room <= 0.0 { assert (room - entry) * quantity >= 0.0; }
    if entry + room <= 0.0 { assert (entry + room) * quantity <= 0.0; }
  }

  /** The tier of a magnitude: the first whose stretch holds it, else the last, else half a percent flat. */
  lemma {:induction false} TiersMean(tiers: seq<Tier>, magnitude: real, k: nat)
    requires k < |tiers| &&
      forall j :: 0 <= j < k ==> !(tiers[j].start <= magnitude && (tiers[j].end.None? || magnitude < tiers[j].end.value))
    ensures tiers[k].start <= magnitude && (tiers[k].end.None? || magnitude < tiers[k].end.value) ==> TierFor(tiers, magnitude) == tiers[k]
    ensures k == |tiers| - 1 ==> TierFor(tiers, magnitude) == tiers[k]
    ensures TierFor([], magnitude) == Tier(0.0, None, 0.005, 0.0)
  {
    if k > 0 { TiersMean(tiers[1..], magnitude, k - 1); }
  }

  /** The funding rate at a time: the first recorded for it, or none. */
  lemma {:induction false} RatesMean(events: seq<FundingEvent>, time: int, k: nat)
    requires k <= |events| && forall j :: 0 <= j < k ==> events[j].time != time
    ensures k < |events| && events[k].time == time ==> RateAt(events, time) == events[k].rate
    ensures k == |events| ==> RateAt(events, time) == 0.0
  {
    if k > 0 { RatesMean(events[1..], time, k - 1); }
  }
}
