/** Which trades a run makes does not depend on money: capital scales a run, and fees only cost.

    Under a flat maintenance rate, two runs that differ in initial capital and fee rates alone are
    compared bar by bar; `c` is the ratio of the second account to the first.
  */
module Money {
  import opened Wrappers
  import opened Arithmetic
  import opened Market
  import opened Liquidations
  import opened Engine

  // --- the comparison -----------------------------------------------------------

  /** At most one tier, without a deduction: the maintenance margin is a fixed share of the notional. */
  predicate Flat(tiers: seq<Tier>) {
    |tiers| == 0 || (|tiers| == 1 && tiers[0].amount == 0.0)
  }

  /** Two configurations that may differ in initial capital and fee rates. */
  predicate SameMarket(a: Config, b: Config) {
    && a.marginPercent == b.marginPercent && a.leverage == b.leverage && a.cross == b.cross
    && a.slippageBps == b.slippageBps && a.applyFunding == b.applyFunding && a.tiers == b.tiers && Flat(a.tiers)
  }

  /** What a trade did, money aside. */
  datatype Leg = Leg(side: Side, entryIndex: nat, entryTime: int, entryPrice: real,
                     exitIndex: int, exitTime: int, exitPrice: real, reason: ExitReason)

  function LegOf(t: Trade): Leg {
    Leg(t.side, t.entryIndex, t.entryTime, t.entryPrice, t.exitIndex, t.exitTime, t.exitPrice, t.reason)
  }

  predicate SameLegs(a: seq<Trade>, b: seq<Trade>) {
    |a| == |b| && forall j :: 0 <= j < |a| ==> LegOf(a[j]) == LegOf(b[j])
  }

  /** The same position but for size and fees: b's is c times a's. */
  predicate SameTrade(c: real, a: Trade, b: Trade) {
    && LegOf(a) == LegOf(b) && a.liquidation == b.liquidation
    && b.quantity == c * a.quantity && b.margin == c * a.margin && b.fundingPaid == c * a.fundingPaid
  }

  predicate SamePosition(c: real, a: Position, b: Position) {
    && SameTrade(c, a.trade, b.trade)
    && a.stop == b.stop && a.take == b.take && a.distance == b.distance && a.armed == b.armed
    && a.nextFunding == b.nextFunding && a.peak == b.peak
  }

  // --- arithmetic -----------------------------------------------------------------

  lemma ScaledQuotient(c: real, x: real, q: real)
    requires q != 0.0
    ensures (c * x) / q == c * (x / q)
  {
  }

  lemma CommonFactor(c: real, x: real, q: real)
    requires c != 0.0 && q != 0.0
    ensures (c * x) / (c * q) == x / q
  {
    var y := x / q;
    assert x == y * q;
    assert c * x == y * (c * q);
  }

  lemma ScaledProduct(c: real, x: real, y: real)
    ensures x * (c * y) == c * (x * y) && (c * x) * y == c * (x * y)
  {
  }

  lemma PositiveProduct(x: real, y: real)
    requires x > 0.0
    ensures (y > 0.0 <==> x * y > 0.0) && (y >= 0.0 <==> x * y >= 0.0)
  {
  }

  // --- opening --------------------------------------------------------------------

  lemma MaintenanceScales(tiers: seq<Tier>, c: real, notional: real, scaled: real)
    requires Flat(tiers) && c > 0.0 && scaled == c * notional
    ensures MaintenanceMargin(tiers, scaled) == c * MaintenanceMargin(tiers, notional)
  {
    PositiveProduct(c, notional);
    PositiveProduct(c, -notional);
    assert AbsReal(scaled) == c * AbsReal(notional);
    assert TierFor(tiers, AbsReal(scaled)) == TierFor(tiers, AbsReal(notional));
    ScaledProduct(c, AbsReal(notional), TierFor(tiers, AbsReal(notional)).rate);
  }

  lemma RoomScales(entry: real, quantity: real, margin: real, tiers: seq<Tier>, c: real, quantity': real, margin': real)
    requires quantity > 0.0 && c > 0.0 && Flat(tiers)
    requires quantity' == c * quantity && margin' == c * margin && quantity' > 0.0
    ensures Room(entry, quantity', margin', tiers) == Room(entry, quantity, margin, tiers)
  {
    hide MaintenanceMargin;
    ScaledProduct(c, entry, quantity);
    MaintenanceScales(tiers, c, entry * quantity, entry * quantity');
    var maint := MaintenanceMargin(tiers, entry * quantity);
    assert margin' - c * maint == c * (margin - maint);
    CommonFactor(c, margin - maint, quantity);
  }

  lemma LiquidationScales(entry: real, quantity: real, margin: real, side: Side, tiers: seq<Tier>, c: real,
                          quantity': real, margin': real)
    requires quantity > 0.0 && entry > 0.0 && c > 0.0 && Flat(tiers)
    requires quantity' == c * quantity && margin' == c * margin
    ensures quantity' > 0.0
    ensures LiquidationPrice(entry, quantity', margin', side, tiers) == LiquidationPrice(entry, quantity, margin, side, tiers)
  {
    hide Room;
    PositiveProduct(c, quantity);
    RoomScales(entry, quantity, margin, tiers, c, quantity', margin');
  }

  /** What opening computes, named. */
  lemma OpenUnfolds(config: Config, side: Side, i: nat, time: int, price: real, equity: real)
    ensures var t := OpenTrade(config, side, i, time, price, equity);
      var fill := Slip(price, config.slippageBps, side.Long?);
      var margin := equity * (config.marginPercent / 100.0);
      var notional := margin * config.leverage;
      && LegOf(t) == Leg(side, i, time, fill, -1, 0, 0.0, EndOfData)
      && t.quantity == (if fill > 0.0 then notional / fill else 0.0) && t.margin == margin && t.fundingPaid == 0.0
      && t.entryFee == notional * config.EntryFeeRate()
      && t.liquidation == if t.quantity > 0.0 && fill > 0.0
           then LiquidationPrice(fill, t.quantity, if config.cross then equity else margin, side, config.tiers)
           else Some(0.0)
  {
    hide Slip, LiquidationPrice;
  }

  lemma SizeScales(c: real, equity: real, share: real, leverage: real, fill: real)
    requires c > 0.0
    ensures (c * equity) * share == c * (equity * share)
    ensures (c * equity) * share * leverage == c * (equity * share * leverage)
    ensures fill > 0.0 ==> ((c * equity) * share * leverage) / fill == c * ((equity * share * leverage) / fill)
  {
    ScaledProduct(c, equity, share);
    ScaledProduct(c, equity * share, leverage);
    if fill > 0.0 { ScaledQuotient(c, equity * share * leverage, fill); }
  }

  lemma OpenScales(a: Config, b: Config, side: Side, i: nat, time: int, price: real, equity: real, c: real)
    requires SameMarket(a, b) && c > 0.0
    ensures var x, y := OpenTrade(a, side, i, time, price, equity), OpenTrade(b, side, i, time, price, c * equity);
      && SameTrade(c, x, y)
      && x.entryFee == (equity * (a.marginPercent / 100.0) * a.leverage) * a.EntryFeeRate()
      && y.entryFee == c * (equity * (a.marginPercent / 100.0) * a.leverage) * b.EntryFeeRate()
  {
    OpenUnfolds(a, side, i, time, price, equity);
    OpenUnfolds(b, side, i, time, price, c * equity);
    var x, y := OpenTrade(a, side, i, time, price, equity), OpenTrade(b, side, i, time, price, c * equity);
    hide OpenTrade, Slip, LiquidationPrice;
    var fill := Slip(price, a.slippageBps, side.Long?);
    SizeScales(c, equity, a.marginPercent / 100.0, a.leverage, fill);
    assert y.quantity == c * x.quantity && y.margin == c * x.margin;
    PositiveProduct(c, x.quantity);
    if x.quantity > 0.0 && fill > 0.0 {
      LiquidationScales(fill, x.quantity, if a.cross then equity else x.margin, side, a.tiers, c,
                        y.quantity, if b.cross then c * equity else y.margin);
    }
  }

  // --- managing -----------------------------------------------------------------

  lemma StopsAgree(rules: ExitRules, c: real, p: Position, q: Position, bar: Bar, atr: Option<real>)
    requires SamePosition(c, p, q)
    ensures SamePosition(c, UpdateStops(rules, p, bar, atr), UpdateStops(rules, q, bar, atr))
  {
    hide Away;
  }

  lemma HitsAgree(c: real, p: Position, q: Position, high: real, low: real)
    requires SamePosition(c, p, q)
    ensures HitWithin(p, high, low) == HitWithin(q, high, low)
  {
  }

  lemma {:induction false} WalksAgree(c: real, p: Position, q: Position, fine: Bars)
    requires SamePosition(c, p, q)
    ensures WalkMinutes(p, fine) == WalkMinutes(q, fine)
  {
    hide HitWithin, SamePosition;
    if |fine| > 0 {
      HitsAgree(c, p, q, fine[0].high, fine[0].low);
      WalksAgree(c, p, q, fine[1..]);
    }
  }

  lemma SettleScales(x: Setup, y: Setup, c: real, p: Position, q: Position, start: int, price: real)
    requires x.funding == y.funding && SamePosition(c, p, q)
    ensures SamePosition(c, Settle(x, p, start, price), Settle(y, q, start, price))
  {
    var rate, side := RateAt(x.funding, p.nextFunding), Direction(p.trade.side);
    ScaledProduct(c, price, p.trade.quantity);
    ScaledProduct(c, price * p.trade.quantity, rate);
    ScaledProduct(c, price * p.trade.quantity * rate, side);
    hide RateAt, Direction;
  }

  lemma {:induction false} AccrueScales(x: Setup, y: Setup, c: real, p: Position, q: Position, start: int, end: int, price: real)
    requires x.funding == y.funding && x.config.applyFunding == y.config.applyFunding && SamePosition(c, p, q)
    ensures SamePosition(c, Accrue(x, p, start, end, price), Accrue(y, q, start, end, price))
    ensures Accrue(x, p, start, end, price).trade.entryFee == p.trade.entryFee
    ensures Accrue(y, q, start, end, price).trade.entryFee == q.trade.entryFee
    decreases end - p.nextFunding
  {
    hide RateAt, Direction;
    if x.config.applyFunding && p.nextFunding < end {
      SettleScales(x, y, c, p, q, start, price);
      AccrueScales(x, y, c, Settle(x, p, start, price), Settle(y, q, start, price), start, end, price);
    }
  }

  // --- closing ------------------------------------------------------------------

  /** What closing computes, named. */
  function NetOf(config: Config, t: Trade, fill: real): real {
    (fill - t.entryPrice) * t.quantity * Direction(t.side) - (t.entryFee + fill * t.quantity * config.ExitFeeRate()) - t.fundingPaid
  }

  function ExitFill(config: Config, t: Trade, price: real, reason: ExitReason): real {
    if reason.Liquidation? then price else Slip(price, config.slippageBps, t.side.Short?)
  }

  function Settled(config: Config, t: Trade, price: real, reason: ExitReason, equity: real): real {
    var net := NetOf(config, t, ExitFill(config, t, price, reason));
    if reason.Liquidation? then MaxReal(net, -(if config.cross then equity else t.margin)) else net
  }

  lemma CloseUnfolds(config: Config, t: Trade, index: int, time: int, price: real, reason: ExitReason, equity: real)
    ensures var closed := Close(config, t, index, time, price, reason, equity);
      && LegOf(closed) == LegOf(t).(exitIndex := index, exitTime := time, reason := reason,
                                    exitPrice := ExitFill(config, t, price, reason))
      && closed.netPnl == Settled(config, t, price, reason, equity)
      && closed.equityAfter == equity + closed.netPnl
  {
    hide Slip, Direction;
  }

  /** With the same fee rates a trade c times the size nets c times as much. */
  lemma NetScales(a: Config, b: Config, c: real, x: Trade, y: Trade, fill: real)
    requires SameTrade(c, x, y) && y.entryFee == c * x.entryFee && a.ExitFeeRate() == b.ExitFeeRate()
    ensures NetOf(b, y, fill) == c * NetOf(a, x, fill)
  {
    var d, rate := Direction(x.side), a.ExitFeeRate();
    ScaledProduct(c, fill - x.entryPrice, x.quantity);
    ScaledProduct(c, (fill - x.entryPrice) * x.quantity, d);
    ScaledProduct(c, fill, x.quantity);
    ScaledProduct(c, fill * x.quantity, rate);
    var gross, fee := (fill - x.entryPrice) * x.quantity * d, fill * x.quantity * rate;
    assert c * (gross - (x.entryFee + fee) - x.fundingPaid) == c * gross - (c * x.entryFee + c * fee) - c * x.fundingPaid;
    hide Direction;
  }

  lemma RateCosts(amount: real, low: real, high: real)
    requires amount >= 0.0 && low <= high
    ensures amount * low <= amount * high
  {
  }

  /** With higher fee rates it nets no more than that. */
  lemma NetCosts(a: Config, b: Config, c: real, x: Trade, y: Trade, fill: real)
    requires SameTrade(c, x, y) && c > 0.0 && y.entryFee >= c * x.entryFee && a.ExitFeeRate() <= b.ExitFeeRate()
    requires fill >= 0.0 && x.quantity >= 0.0
    ensures NetOf(b, y, fill) <= c * NetOf(a, x, fill)
  {
    var y', b' := y.(entryFee := c * x.entryFee), b.(makerFee := a.ExitFeeRate(), takerFee := a.ExitFeeRate());
    NetScales(a, b', c, x, y', fill);
    ProductNonNegative(fill, y.quantity, c, x.quantity);
    RateCosts(fill * y.quantity, a.ExitFeeRate(), b.ExitFeeRate());
    hide Direction;
  }

  lemma ProductNonNegative(fill: real, scaled: real, c: real, quantity: real)
    requires fill >= 0.0 && c > 0.0 && quantity >= 0.0 && scaled == c * quantity
    ensures scaled >= 0.0 && fill * scaled >= 0.0
  {
    PositiveProduct(c, quantity);
    if fill > 0.0 { PositiveProduct(fill, scaled); }
  }

  lemma FloorScales(c: real, net: real, net': real, backing: real, backing': real)
    requires c > 0.0 && backing' == c * backing
    ensures net' == c * net ==> MaxReal(net', -backing') == c * MaxReal(net, -backing)
    ensures net' <= c * net ==> MaxReal(net', -backing') <= c * MaxReal(net, -backing)
  {
    if net < -backing { assert c * net < c * -backing; } else { assert c * net >= c * -backing; }
    assert c * -backing == -backing';
  }
}
