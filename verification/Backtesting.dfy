/** The backtest as the source runs it: objects updated in place, bar after bar. Each method is proved to do
    what the step functions of Engine say (packages/engine/quanta_engine/backtest/engine.py).
  */
module Backtesting {
  import opened Wrappers
  import opened Num
  import opened Series
  import opened Arithmetic
  import opened Market
  import opened Liquidations
  import opened Engine
  import opened Strategies

  /** The open trade with the levels that move while it runs. */
  class OpenPosition {
    var trade: Trade
    var stop: Option<real>
    var take: Option<real>
    var distance: real
    var armed: bool
    var nextFunding: int
    var peak: real

    ghost function View(): Position
      reads this
    {
      Position(trade, stop, take, distance, armed, nextFunding, peak)
    }

    constructor (trade: Trade)
      ensures View() == Position(trade, None, None, 0.0, false, 0, trade.entryPrice)
    {
      this.trade := trade;
      stop, take, distance, armed, nextFunding, peak := None, None, 0.0, false, 0, trade.entryPrice;
    }
  }

  method TierForNotional(tiers: seq<Tier>, notional: real) returns (tier: Tier)
    ensures tier == TierFor(tiers, AbsReal(notional))
  {
    if |tiers| == 0 {
      return FLAT_TIER;
    }
    var magnitude := AbsReal(notional);
    for i := 0 to |tiers|
      invariant TierFor(tiers, magnitude) == if i < |tiers| then TierFor(tiers[i..], magnitude) else tiers[|tiers| - 1]
    {
      if InTier(tiers[i], magnitude) {
        return tiers[i];
      }
      assert tiers[i..][1..] == tiers[i + 1..];
    }
    return tiers[|tiers| - 1];
  }

  method FundingRateAt(events: seq<FundingEvent>, time: int) returns (rate: real)
    ensures rate == RateAt(events, time)
  {
    for i := 0 to |events|
      invariant RateAt(events, time) == RateAt(events[i..], time)
    {
      if events[i].time == time {
        return events[i].rate;
      }
      assert events[i..][1..] == events[i + 1..];
    }
    return 0.0;
  }

  lemma OpenKeepsSide(config: Config, side: Side, index: nat, time: int, price: real, equity: real)
    ensures OpenTrade(config, side, index, time, price, equity).side == side
  {
  }

  /** The loop's variables as a state. */
  ghost function Snapshot(equity: real, position: OpenPosition?, pending: Option<Side>, trades: seq<Trade>, path: seq<real>): State
    reads position
  {
    State(equity, if position == null then None else Some(position.View()), pending, trades, path)
  }

  // --- each phase of a turn, by its outcome -----------------------------------------

  lemma FillOutcome(setup: Setup, feed: Feed, i: nat, s: State)
    requires feed.Aligned() && i < |feed.bars|
    ensures !(s.pending.Some? && s.position.None?) ==> Fill(setup, feed, i, s) == s
    ensures s.pending.Some? && s.position.None? ==>
      var bar, atr := feed.bars[i], if i > 0 then feed.atr[i - 1] else None;
      var p := Open(setup.rules, setup.config, s.pending.value, i, bar.time, bar.open, s.equity, atr);
      Fill(setup, feed, i, s) == State(s.equity, Some(p), None, s.trades, s.path)
  {
    hide Open;
  }

  lemma ManageOutcome(setup: Setup, feed: Feed, i: nat, s: State)
    requires feed.Aligned() && i < |feed.bars|
    ensures s.position.None? ==> Manage(setup, feed, i, s) == s
    ensures s.position.Some? ==>
      var bar, end := feed.bars[i], BarEnd(feed.bars, i);
      var p := UpdateStops(setup.rules, s.position.value, bar, feed.atr[i]);
      var hit := Resolve(setup.minutes, p, bar.high, bar.low, bar.time, end);
      Manage(setup, feed, i, s) ==
      if hit.Some? then Closed(s, Close(setup.config, p.trade, i, bar.time, hit.value.1, hit.value.0, s.equity), s.pending)
      else s.(position := Some(Excursion(Accrue(setup, p, bar.time, end, bar.close), bar.high, bar.low)))
  {
    hide UpdateStops, Resolve, Close, Accrue, Excursion, BarEnd;
  }

  ghost function Closed(s: State, t: Trade, pending: Option<Side>): State {
    State(t.equityAfter, None, pending, s.trades + [t], s.path)
  }

  lemma SignalOutcome(setup: Setup, feed: Feed, i: nat, s: State)
    requires feed.Aligned() && i < |feed.bars|
    ensures s.position.None? ==> Signal(setup, feed, i, s) == s.(pending :=
      if s.pending.Some? then s.pending else if feed.longs[i] then Some(Long) else if feed.shorts[i] then Some(Short) else None)
    ensures s.position.Some? ==>
      var t := s.position.value.trade;
      var reason := SignalExit(setup.rules, t, i, feed.longs[i], feed.shorts[i]);
      Signal(setup, feed, i, s) ==
      if reason.Some? && i + 1 < |feed.bars| then
        Closed(s, Close(setup.config, t, i + 1, feed.bars[i + 1].time, feed.bars[i + 1].open, reason.value, s.equity),
               if reason.value.OppositeSignal? then Some(if feed.longs[i] then Long else Short) else s.pending)
      else s
  {
    hide SignalExit, Close;
  }

  lemma FinishOutcome(setup: Setup, feed: Feed, s: State)
    requires |feed.bars| > 0 && |s.path| == |feed.bars|
    ensures s.position.None? ==> Finish(setup, feed, s) == s
    ensures s.position.Some? ==>
      var last := feed.bars[|feed.bars| - 1];
      var t := Close(setup.config, s.position.value.trade, |feed.bars| - 1, last.time, last.close, EndOfData, s.equity);
      Finish(setup, feed, s) ==
        State(t.equityAfter, None, s.pending, s.trades + [t], s.path[|feed.bars| - 1 := t.equityAfter])
  {
    hide Close;
  }

  class Backtester {
    const strategy: Strategy
    const config: Config
    const funding: seq<FundingEvent>
    const minutes: Bars

    constructor (strategy: Strategy, config: Config, funding: seq<FundingEvent>, minutes: Bars)
      ensures this.strategy == strategy && Setting() == Setup(strategy.rules, config, funding, minutes)
    {
      this.strategy, this.config, this.funding, this.minutes := strategy, config, funding, minutes;
    }

    ghost function Setting(): Setup {
      Setup(strategy.rules, config, funding, minutes)
    }

    method OpenAt(side: Side, index: nat, time: int, price: real, equity: real, atr: Option<real>)
      returns (position: OpenPosition)
      ensures fresh(position)
      ensures position.View() == Open(strategy.rules, config, side, index, time, price, equity, atr)
    {
      hide OpenTrade, NextFundingAfter, Away, StopDistance;
      var trade := NewTrade(side, index, time, price, equity);
      var rules, fill := strategy.rules, trade.entryPrice;
      OpenKeepsSide(config, side, index, time, price, equity);
      position := new OpenPosition(trade);
      position.nextFunding := NextFundingAfter(time);
      if rules.atrStopMultiple.Some? && atr.Some? {
        ghost var bare := position.View();
        var distance := StopDistance(rules, atr.value);
        position.distance := distance;
        position.stop := Some(Away(side, fill, distance, -1.0));
        if rules.takeProfitR.Some? {
          position.take := Some(Away(side, fill, distance, rules.takeProfitR.value));
        }
        assert position.View() == WithLevels(rules, bare, distance);
      }
    }

    method NewTrade(side: Side, index: nat, time: int, price: real, equity: real) returns (trade: Trade)
      ensures trade == OpenTrade(config, side, index, time, price, equity)
    {
      hide Slip, LiquidationPrice;
      ghost var spec := OpenTrade(config, side, index, time, price, equity);
      var fill := Slip(price, config.slippageBps, side.Long?);
      var margin := equity * (config.marginPercent / 100.0);
      assert margin == spec.margin;
      var notional := margin * config.leverage;
      var quantity := if fill > 0.0 then notional / fill else 0.0;
      assert quantity == spec.quantity;
      var backing := if config.cross then equity else margin;
      var liquidation := Some(0.0);
      if quantity > 0.0 {
        liquidation := LiquidationPrice(fill, quantity, backing, side, config.tiers);
      }
      assert liquidation == spec.liquidation;
      trade := Trade(side, index, time, fill, quantity, margin, config.leverage, liquidation,
                     -1, 0, 0.0, EndOfData, 0.0, 0.0, 0.0, 0.0, 0.0, 0.0, 0.0, 0.0);
      trade := trade.(entryFee := notional * config.EntryFeeRate());
    }

    method UpdatePosition(position: OpenPosition, bar: Bar, atr: Option<real>)
      modifies position
      ensures position.View() == UpdateStops(strategy.rules, old(position.View()), bar, atr)
    {
      hide Away;
      var rules, trade := strategy.rules, position.trade;
      var isLong := trade.side.Long?;
      var distance := position.distance;
      if isLong {
        position.peak := MaxReal(position.peak, bar.high);
      } else {
        position.peak := MinReal(position.peak, bar.low);
      }
      if rules.breakEvenAtR.Some? && distance > 0.0 && !position.armed {
        var target := distance * rules.breakEvenAtR.value;
        var moved := if isLong then position.peak - trade.entryPrice else trade.entryPrice - position.peak;
        assert moved == (position.peak - trade.entryPrice) * Direction(trade.side);
        if moved >= target {
          position.stop := Some(trade.entryPrice);
          position.armed := true;
        }
      }
      ghost var armed := position.View();
      assert armed == ArmBreakEven(rules, TrackPeak(old(position.View()), bar));
      if rules.trailingAtrMultiple.Some? {
        if atr.Some? {
          var candidate := Away(trade.side, position.peak, atr.value, -rules.trailingAtrMultiple.value);
          if position.stop.None? {
            position.stop := Some(candidate);
          } else if isLong {
            position.stop := Some(MaxReal(position.stop.value, candidate));
          } else {
            position.stop := Some(MinReal(position.stop.value, candidate));
          }
          assert position.View() == TrailTo(armed, candidate);
        }
      }
    }

    method ResolveIntrabar(position: OpenPosition, high: real, low: real, start: int, end: int) returns (hit: Hit)
      ensures hit == Resolve(minutes, position.View(), high, low, start, end)
    {
      hide MinuteSlice;
      var stop, take, trade := position.stop, position.take, position.trade;
      var isLong := trade.side.Long?;
      ghost var p := position.View();
      var fine := MinuteSlice(minutes, start, end);
      if |fine| > 0 {
        for i := 0 to |fine|
          invariant WalkMinutes(p, fine) == WalkMinutes(p, fine[i..])
        {
          assert fine[i..][1..] == fine[i + 1..];
          if LiquidationTouched(trade, fine[i].high, fine[i].low) {
            return Some((Liquidation, trade.liquidation.value));
          }
          if Touched(stop, !isLong, fine[i].high, fine[i].low) {
            return Some((StopLoss, stop.value));
          }
          if Touched(take, isLong, fine[i].high, fine[i].low) {
            return Some((TakeProfit, take.value));
          }
        }
        return None;
      }
      if LiquidationTouched(trade, high, low) {
        return Some((Liquidation, trade.liquidation.value));
      }
      if Touched(stop, !isLong, high, low) {
        return Some((StopLoss, stop.value));
      }
      if Touched(take, isLong, high, low) {
        return Some((TakeProfit, take.value));
      }
      return None;
    }

    method AccrueFunding(position: OpenPosition, start: int, end: int, price: real)
      modifies position
      ensures position.View() == Accrue(Setting(), old(position.View()), start, end, price)
    {
      hide RateAt;
      if !config.applyFunding {
        return;
      }
      while position.nextFunding < end
        invariant Accrue(Setting(), old(position.View()), start, end, price) == Accrue(Setting(), position.View(), start, end, price)
        decreases end - position.nextFunding
      {
        ghost var p := position.View();
        var settlement := position.nextFunding;
        if settlement >= start {
          var rate := FundingRateAt(funding, settlement);
          var notional := price * position.trade.quantity;
          var direction := Direction(position.trade.side);
          position.trade := position.trade.(fundingPaid := position.trade.fundingPaid + notional * rate * direction);
        }
        position.nextFunding := position.nextFunding + FUNDING_INTERVAL_MS;
        assert position.View() == Settle(Setting(), p, start, price);
      }
    }

    method TrackExcursion(position: OpenPosition, high: real, low: real)
      modifies position
      ensures position.View() == Excursion(old(position.View()), high, low)
    {
      hide Direction;
      var trade := position.trade;
      var direction := Direction(trade.side);
      var best := (high - trade.entryPrice) * direction * trade.quantity;
      var worst := (low - trade.entryPrice) * direction * trade.quantity;
      if trade.side.Short? {
        best, worst := worst, best;
      }
      position.trade := trade.(runUp := MaxReal(trade.runUp, best), drawdown := MinReal(trade.drawdown, worst));
    }

    method SignalReason(position: OpenPosition, index: nat, longs: seq<bool>, shorts: seq<bool>)
      returns (reason: Option<ExitReason>)
      requires index < |longs| && index < |shorts|
      ensures reason == SignalExit(strategy.rules, position.trade, index, longs[index], shorts[index])
    {
      var rules, trade := strategy.rules, position.trade;
      if rules.timeExitBars.Some? && index - trade.entryIndex >= rules.timeExitBars.value {
        return Some(TimeExit);
      }
      if rules.exitOnOpposite {
        if trade.side.Long? && shorts[index] {
          return Some(OppositeSignal);
        }
        if trade.side.Short? && longs[index] {
          return Some(OppositeSignal);
        }
      }
      return None;
    }

    method ClosePosition(position: OpenPosition, index: int, time: int, price: real, reason: ExitReason, equity: real)
      returns (after: real)
      modifies position
      ensures position.View() == old(position.View()).(trade := Close(config, old(position.trade), index, time, price, reason, equity))
      ensures after == position.trade.equityAfter
    {
      hide Slip;
      var trade := position.trade;
      var isLong := trade.side.Long?;
      var fill := if reason.Liquidation? then price else Slip(price, config.slippageBps, !isLong);
      trade := trade.(exitIndex := index, exitTime := time, exitPrice := fill, reason := reason);
      var direction := Direction(trade.side);
      trade := trade.(grossPnl := (fill - trade.entryPrice) * trade.quantity * direction);
      trade := trade.(exitFee := fill * trade.quantity * config.ExitFeeRate());
      trade := trade.(netPnl := trade.grossPnl - (trade.entryFee + trade.exitFee) - trade.fundingPaid);
      if reason.Liquidation? {
        var backing := if config.cross then equity else trade.margin;
        trade := trade.(netPnl := MaxReal(trade.netPnl, -backing));
      }
      after := equity + trade.netPnl;
      trade := trade.(equityAfter := after);
      position.trade := trade;
    }

    /** Step 2 of a turn, on the open position: whether it was closed within the bar, and the equity after. */
    method ManageBar(position: OpenPosition, index: nat, bar: Bar, end: int, atr: Option<real>, equity: real)
      returns (exited: bool, after: real)
      modifies position
      ensures var p := UpdateStops(strategy.rules, old(position.View()), bar, atr);
        var hit := Resolve(minutes, p, bar.high, bar.low, bar.time, end);
        && exited == hit.Some?
        && (hit.Some? ==> position.trade == Close(config, p.trade, index, bar.time, hit.value.1, hit.value.0, equity)
                          && after == position.trade.equityAfter)
        && (hit.None? ==> position.View() == Excursion(Accrue(Setting(), p, bar.time, end, bar.close), bar.high, bar.low)
                          && after == equity)
    {
      hide UpdateStops, Resolve, Close, Accrue, Excursion;
      UpdatePosition(position, bar, atr);
      var hit := ResolveIntrabar(position, bar.high, bar.low, bar.time, end);
      exited, after := hit.Some?, equity;
      if hit.Some? {
        after := ClosePosition(position, index, bar.time, hit.value.1, hit.value.0, equity);
      } else {
        AccrueFunding(position, bar.time, end, bar.close);
        TrackExcursion(position, bar.high, bar.low);
      }
    }

    /** One turn of the loop over its variables; `path` is the equity path so far, `marked` its next entry. */
    method Turn(feed: Feed, i: nat, equity0: real, position0: OpenPosition?, pending0: Option<Side>, trades0: seq<Trade>,
                ghost path: seq<real>)
      returns (equity: real, position: OpenPosition?, pending: Option<Side>, trades: seq<Trade>, marked: real)
      requires feed.Aligned() && i < |feed.bars|
      modifies if position0 == null then {} else {position0}
      ensures position == null || position == position0 || fresh(position)
      ensures Snapshot(equity, position, pending, trades, path + [marked])
           == Step(Setting(), feed, i, old(Snapshot(equity0, position0, pending0, trades0, path)))
    {
      hide Open, UpdateStops, Resolve, Accrue, Excursion, Close, SignalExit, Unrealised, Fill, Manage, Signal;
      equity, position, pending, trades := equity0, position0, pending0, trades0;
      ghost var s0 := Snapshot(equity, position, pending, trades, path);
      var bar := feed.bars[i];
      var last := i + 1 == |feed.bars|;
      var barEnd := if last then bar.time + 1 else feed.bars[i + 1].time;

      // Phase one, as Engine.Fill.
      if pending.Some? && position == null {
        position := OpenAt(pending.value, i, bar.time, bar.open, equity, if i > 0 then feed.atr[i - 1] else None);
        pending := None;
      }
      ghost var s1 := Snapshot(equity, position, pending, trades, path);
      FillOutcome(Setting(), feed, i, s0);

      // Phase two, as Engine.Manage.
      if position != null {
        var exited;
        exited, equity := ManageBar(position, i, bar, barEnd, feed.atr[i], equity);
        if exited {
          trades := trades + [position.trade];
          position := null;
        }
      }
      ghost var s2 := Snapshot(equity, position, pending, trades, path);
      ManageOutcome(Setting(), feed, i, s1);

      // Phase three, as Engine.Signal.
      if position != null {
        var reason := SignalReason(position, i, feed.longs, feed.shorts);
        if reason.Some? && !last {
          var next := feed.bars[i + 1];
          equity := ClosePosition(position, i + 1, next.time, next.open, reason.value, equity);
          trades := trades + [position.trade];
          position := null;
          if reason.value.OppositeSignal? {
            pending := Some(if feed.longs[i] then Long else Short);
          }
        }
      } else if pending.None? {
        if feed.longs[i] {
          pending := Some(Long);
        } else if feed.shorts[i] {
          pending := Some(Short);
        }
      }
      SignalOutcome(Setting(), feed, i, s2);

      // Phase four, as Engine.Mark.
      marked := equity + if position != null then Unrealised(position.trade, bar.close) else 0.0;
    }

    /** The loop over the bars leaves exactly what the step functions say. */
    method RunFeed(feed: Feed) returns (s: State)
      requires feed.Aligned() && |feed.bars| > 0
      ensures s == Engine.Run(Setting(), feed)
    {
      hide Close, Step, Finish;
      var n := |feed.bars|;
      var equity := config.initialCapital;
      var equityPath := new real[n];
      var trades: seq<Trade> := [];
      var position: OpenPosition? := null;
      // The side to enter at the next open.
      var pending: Option<Side> := None;
      for i := 0 to n
        invariant fresh(equityPath)
        invariant position != null ==> fresh(position)
        invariant Snapshot(equity, position, pending, trades, equityPath[..i]) == After(Setting(), feed, i)
      {
        ghost var path := equityPath[..i];
        var marked;
        equity, position, pending, trades, marked := Turn(feed, i, equity, position, pending, trades, path);
        equityPath[i] := marked;
        assert equityPath[..i + 1] == path + [marked];
      }
      assert equityPath[..] == equityPath[..n];
      PathLength(Setting(), feed, n);
      FinishOutcome(Setting(), feed, After(Setting(), feed, n));
      if position != null {
        var last := feed.bars[n - 1];
        equity := ClosePosition(position, n - 1, last.time, last.close, EndOfData, equity);
        trades := trades + [position.trade];
        equityPath[n - 1] := equity;
      }
      return State(equity, None, pending, trades, equityPath[..]);
    }

    /** From source text to the account: the whole run, its refusals included. */
    method Run(bars: Bars, std: Cells -> Num) returns (result: Result<State, RunError>)
      requires strategy.rules.Valid()
      ensures result == RunStrategy(strategy, config, funding, minutes, bars, std)
    {
      hide MakeFeed, Engine.Run;
      var made := MakeFeed(strategy, bars, std);
      if made.Err? {
        return Err(made.error);
      }
      var s := RunFeed(made.value);
      return Ok(s);
    }
  }
}
