/** The bar-by-bar backtest as a step function (packages/engine/quanta_engine/backtest/engine.py).

    A step is one turn of the source's loop: fill what the last close queued, manage the open position,
    read this close's signals, and mark the account to market.
  */
module Engine {
  import opened Wrappers
  import opened Arithmetic
  import opened Market
  import opened Liquidations

  const FUNDING_INTERVAL_MS := 28_800_000

  /** What a Backtester holds. */
  datatype Setup = Setup(rules: ExitRules, config: Config, funding: seq<FundingEvent>, minutes: Bars)

  /** One run's input: the bars and, aligned with them, the signals and the ATR (None is NaN). */
  datatype Feed = Feed(bars: Bars, longs: seq<bool>, shorts: seq<bool>, atr: seq<Option<real>>) {
    predicate Aligned() {
      |bars| == |longs| == |shorts| == |atr|
    }
  }

  /** The loop's variables. */
  datatype State = State(
    equity: real, position: Option<Position>, pending: Option<Side>, trades: seq<Trade>, path: seq<real>)

  // --- small parts --------------------------------------------------------

  function Slip(price: real, bps: real, buying: bool): real {
    price * (1.0 + bps / 10000.0 * (if buying then 1.0 else -1.0))
  }

  /** The next 00:00, 08:00 or 16:00 UTC strictly after a time. */
  function NextFundingAfter(time: int): int {
    (time / FUNDING_INTERVAL_MS + 1) * FUNDING_INTERVAL_MS
  }

  /** The first recorded rate at a time, 0 if there is none. */
  function RateAt(events: seq<FundingEvent>, time: int): real {
    if |events| == 0 then 0.0
    else if events[0].time == time then events[0].rate
    else RateAt(events[1..], time)
  }

  function BarEnd(bars: Bars, i: nat): int
    requires i < |bars|
  {
    if i + 1 < |bars| then bars[i + 1].time else bars[i].time + 1
  }

  /** searchsorted(..., side="left") over sorted times. */
  function LowerBound(bars: Bars, time: int): (n: nat)
    ensures n <= |bars|
  {
    if |bars| == 0 || bars[0].time >= time then 0 else 1 + LowerBound(bars[1..], time)
  }

  /** The minute bars inside [start, end). */
  function MinuteSlice(minutes: Bars, start: int, end: int): Bars {
    var lo, hi := LowerBound(minutes, start), LowerBound(minutes, end);
    if hi <= lo then [] else minutes[lo..hi]
  }

  // --- opening ------------------------------------------------------------

  function OpenTrade(config: Config, side: Side, index: nat, time: int, price: real, equity: real): Trade {
    var fill := Slip(price, config.slippageBps, side.Long?);
    var margin := equity * (config.marginPercent / 100.0);
    var notional := margin * config.leverage;
    var quantity := if fill > 0.0 then notional / fill else 0.0;
    var backing := if config.cross then equity else margin;
    Trade(side, index, time, fill, quantity, margin, config.leverage,
          if quantity > 0.0 && fill > 0.0 then LiquidationPrice(fill, quantity, backing, side, config.tiers) else Some(0.0),
          -1, 0, 0.0, EndOfData, 0.0, notional * config.EntryFeeRate(), 0.0, 0.0, 0.0, 0.0, 0.0, 0.0)
  }

  /** A price that many distances in the trade's favour, or against it when the multiple is negative. */
  function Away(side: Side, price: real, distance: real, multiple: real): real {
    if side.Long? then price + distance * multiple else price - distance * multiple
  }

  /** The stop at a distance from the entry, and the take profit at a multiple of it. */
  function WithLevels(rules: ExitRules, p: Position, distance: real): Position {
    var take := if rules.takeProfitR.Some?
                then Some(Away(p.trade.side, p.trade.entryPrice, distance, rules.takeProfitR.value)) else None;
    p.(stop := Some(Away(p.trade.side, p.trade.entryPrice, distance, -1.0)), take := take, distance := distance)
  }

  function StopDistance(rules: ExitRules, atr: real): real
    requires rules.atrStopMultiple.Some?
  {
    atr * rules.atrStopMultiple.value
  }

  function Open(rules: ExitRules, config: Config, side: Side, index: nat, time: int, price: real, equity: real,
                atr: Option<real>): Position
  {
    var trade := OpenTrade(config, side, index, time, price, equity);
    var p := Position(trade, None, None, 0.0, false, NextFundingAfter(time), trade.entryPrice);
    if rules.atrStopMultiple.Some? && atr.Some? then WithLevels(rules, p, StopDistance(rules, atr.value)) else p
  }

  // --- managing -----------------------------------------------------------

  function TrackPeak(p: Position, bar: Bar): Position {
    p.(peak := if p.trade.side.Long? then MaxReal(p.peak, bar.high) else MinReal(p.peak, bar.low))
  }

  /** Once price has run far enough, the stop goes to the entry, wherever it stood. */
  function ArmBreakEven(rules: ExitRules, p: Position): Position {
    var moved := (p.peak - p.trade.entryPrice) * Direction(p.trade.side);
    if rules.breakEvenAtR.Some? && p.distance > 0.0 && !p.armed && moved >= p.distance * rules.breakEvenAtR.value
    then p.(stop := Some(p.trade.entryPrice), armed := true)
    else p
  }

  /** Moves the stop to the candidate unless it already stands better for the trade. */
  function TrailTo(p: Position, candidate: real): Position {
    p.(stop := Some(if p.stop.None? then candidate
                    else if p.trade.side.Long? then MaxReal(p.stop.value, candidate)
                    else MinReal(p.stop.value, candidate)))
  }

  function Trail(rules: ExitRules, p: Position, atr: Option<real>): Position {
    if rules.trailingAtrMultiple.None? || atr.None? then p
    else TrailTo(p, Away(p.trade.side, p.peak, atr.value, -rules.trailingAtrMultiple.value))
  }

  function UpdateStops(rules: ExitRules, p: Position, bar: Bar, atr: Option<real>): Position {
    Trail(rules, ArmBreakEven(rules, TrackPeak(p, bar)), atr)
  }

  type Hit = Option<(ExitReason, real)>

  predicate LiquidationTouched(t: Trade, high: real, low: real) {
    if t.side.Long? then t.liquidation.Some? && t.liquidation.value > 0.0 && low <= t.liquidation.value
    else t.liquidation.Some? && high >= t.liquidation.value
  }

  predicate Touched(level: Option<real>, above: bool, high: real, low: real) {
    level.Some? && if above then high >= level.value else low <= level.value
  }

  /** The exit inside one stretch of trading: liquidation before stop before take profit. */
  function HitWithin(p: Position, high: real, low: real): Hit {
    if LiquidationTouched(p.trade, high, low) then Some((Liquidation, p.trade.liquidation.value))
    else if Touched(p.stop, p.trade.side.Short?, high, low) then Some((StopLoss, p.stop.value))
    else if Touched(p.take, p.trade.side.Long?, high, low) then Some((TakeProfit, p.take.value))
    else None
  }

  /** The first exit over a walk of minute bars. */
  function WalkMinutes(p: Position, fine: Bars): Hit {
    if |fine| == 0 then None
    else
      var first := HitWithin(p, fine[0].high, fine[0].low);
      if first.Some? then first else WalkMinutes(p, fine[1..])
  }

  /** With minute bars inside the bar they decide; without, the bar's own extremes do. */
  function Resolve(minutes: Bars, p: Position, high: real, low: real, start: int, end: int): Hit {
    var fine := MinuteSlice(minutes, start, end);
    if |fine| > 0 then WalkMinutes(p, fine) else HitWithin(p, high, low)
  }

  /** One settlement: charged if it is not before the bar, and the next one comes due. */
  function Settle(setup: Setup, p: Position, start: int, price: real): Position {
    var charge := price * p.trade.quantity * RateAt(setup.funding, p.nextFunding) * Direction(p.trade.side);
    var paid := if p.nextFunding >= start then p.trade.fundingPaid + charge else p.trade.fundingPaid;
    p.(trade := p.trade.(fundingPaid := paid), nextFunding := p.nextFunding + FUNDING_INTERVAL_MS)
  }

  /** Charges every settlement before the bar's end, at the bar's close. */
  function Accrue(setup: Setup, p: Position, start: int, end: int, price: real): Position
    decreases end - p.nextFunding
  {
    if !setup.config.applyFunding || p.nextFunding >= end then p
    else Accrue(setup, Settle(setup, p, start, price), start, end, price)
  }

  function Excursion(p: Position, high: real, low: real): Position {
    var t := p.trade;
    var a, b := (high - t.entryPrice) * Direction(t.side) * t.quantity, (low - t.entryPrice) * Direction(t.side) * t.quantity;
    var best, worst := if t.side.Long? then a else b, if t.side.Long? then b else a;
    p.(trade := t.(runUp := MaxReal(t.runUp, best), drawdown := MinReal(t.drawdown, worst)))
  }

  function Unrealised(t: Trade, price: real): real {
    (price - t.entryPrice) * t.quantity * Direction(t.side)
  }

  // --- closing ------------------------------------------------------------

  /** The finished trade; its netPnl is what the account changes by. */
  function Close(config: Config, t: Trade, index: int, time: int, price: real, reason: ExitReason, equity: real): Trade {
    var fill := if reason.Liquidation? then price else Slip(price, config.slippageBps, t.side.Short?);
    var gross := (fill - t.entryPrice) * t.quantity * Direction(t.side);
    var exitFee := fill * t.quantity * config.ExitFeeRate();
    var net := gross - (t.entryFee + exitFee) - t.fundingPaid;
    var backing := if config.cross then equity else t.margin;
    var floored := if reason.Liquidation? then MaxReal(net, -backing) else net;
    t.(exitIndex := index, exitTime := time, exitPrice := fill, reason := reason, grossPnl := gross,
       exitFee := exitFee, netPnl := floored, equityAfter := equity + floored)
  }

  function SignalExit(rules: ExitRules, t: Trade, index: nat, long: bool, short: bool): Option<ExitReason> {
    if rules.timeExitBars.Some? && index - t.entryIndex >= rules.timeExitBars.value then Some(TimeExit)
    else if rules.exitOnOpposite && (if t.side.Long? then short else long) then Some(OppositeSignal)
    else None
  }

  function CloseInto(s: State, t: Trade): State {
    s.(equity := t.equityAfter, position := None, trades := s.trades + [t])
  }

  // --- one turn of the loop -----------------------------------------------

  /** First, a queued entry is filled at the bar's open. */
  function Fill(setup: Setup, feed: Feed, i: nat, s: State): State
    requires feed.Aligned() && i < |feed.bars|
  {
    if s.pending.Some? && s.position.None? then
      var atr := if i > 0 then feed.atr[i - 1] else None;
      var bar := feed.bars[i];
      s.(position := Some(Open(setup.rules, setup.config, s.pending.value, i, bar.time, bar.open, s.equity, atr)),
         pending := None)
    else s
  }

  /** Then an open position meets its levels, funding and excursions. */
  function Manage(setup: Setup, feed: Feed, i: nat, s: State): State
    requires feed.Aligned() && i < |feed.bars|
  {
    if s.position.None? then s
    else
      var bar, end := feed.bars[i], BarEnd(feed.bars, i);
      var p := UpdateStops(setup.rules, s.position.value, bar, feed.atr[i]);
      var hit := Resolve(setup.minutes, p, bar.high, bar.low, bar.time, end);
      if hit.Some? then
        CloseInto(s, Close(setup.config, p.trade, i, bar.time, hit.value.1, hit.value.0, s.equity))
      else
        s.(position := Some(Excursion(Accrue(setup, p, bar.time, end, bar.close), bar.high, bar.low)))
  }

  /** Then the close's signals end a position or queue an entry. */
  function Signal(setup: Setup, feed: Feed, i: nat, s: State): State
    requires feed.Aligned() && i < |feed.bars|
  {
    if s.position.Some? then
      var t := s.position.value.trade;
      var reason := SignalExit(setup.rules, t, i, feed.longs[i], feed.shorts[i]);
      if reason.Some? && i + 1 < |feed.bars| then
        var next := feed.bars[i + 1];
        var closed := CloseInto(s, Close(setup.config, t, i + 1, next.time, next.open, reason.value, s.equity));
        if reason.value.OppositeSignal? then closed.(pending := Some(if feed.longs[i] then Long else Short)) else closed
      else s
    else if s.pending.None? then
      s.(pending := if feed.longs[i] then Some(Long) else if feed.shorts[i] then Some(Short) else None)
    else s
  }

  /** Last, the bar's point of the equity path. */
  function Mark(feed: Feed, i: nat, s: State): State
    requires i < |feed.bars|
  {
    var open := if s.position.Some? then Unrealised(s.position.value.trade, feed.bars[i].close) else 0.0;
    s.(path := s.path + [s.equity + open])
  }

  function Step(setup: Setup, feed: Feed, i: nat, s: State): State
    requires feed.Aligned() && i < |feed.bars|
  {
    Mark(feed, i, Signal(setup, feed, i, Manage(setup, feed, i, Fill(setup, feed, i, s))))
  }

  function Start(config: Config): State {
    State(config.initialCapital, None, None, [], [])
  }

  /** The loop's variables after k bars. */
  function After(setup: Setup, feed: Feed, k: nat): State
    requires feed.Aligned() && k <= |feed.bars|
  {
    if k == 0 then Start(setup.config) else Step(setup, feed, k - 1, After(setup, feed, k - 1))
  }

  /** A position left over ends at the last close. */
  function Finish(setup: Setup, feed: Feed, s: State): State
    requires |feed.bars| > 0 && |s.path| == |feed.bars|
  {
    if s.position.None? then s
    else
      var last := |feed.bars| - 1;
      var bar := feed.bars[last];
      var closed := CloseInto(s, Close(setup.config, s.position.value.trade, last, bar.time, bar.close, EndOfData, s.equity));
      closed.(path := closed.path[last := closed.equity])
  }

  lemma PhasesKeepPath(setup: Setup, feed: Feed, i: nat, s: State)
    requires feed.Aligned() && i < |feed.bars|
    ensures Fill(setup, feed, i, s).path == Manage(setup, feed, i, s).path == Signal(setup, feed, i, s).path == s.path
  {
    hide Open, Close, UpdateStops, Resolve, Accrue, Excursion, SignalExit;
  }

  lemma {:induction false} PathLength(setup: Setup, feed: Feed, k: nat)
    requires feed.Aligned() && k <= |feed.bars|
    ensures |After(setup, feed, k).path| == k
  {
    hide Fill, Manage, Signal, Unrealised;
    if k > 0 {
      PathLength(setup, feed, k - 1);
      var s := After(setup, feed, k - 1);
      PhasesKeepPath(setup, feed, k - 1, s);
      PhasesKeepPath(setup, feed, k - 1, Fill(setup, feed, k - 1, s));
      PhasesKeepPath(setup, feed, k - 1, Manage(setup, feed, k - 1, Fill(setup, feed, k - 1, s)));
    }
  }

  function Run(setup: Setup, feed: Feed): State
    requires feed.Aligned() && |feed.bars| > 0
  {
    PathLength(setup, feed, |feed.bars|);
    Finish(setup, feed, After(setup, feed, |feed.bars|))
  }
}
