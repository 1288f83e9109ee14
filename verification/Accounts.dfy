/** Every trade of every run, accounted for: what it was entered on, how large it was, why it ended and what it
    made (packages/engine/quanta_engine/strategy.py and backtest/engine.py).
  */
module Accounts {
  import opened Wrappers
  import opened Num
  import opened Series
  import opened Syntax
  import opened Grammar
  import opened Evaluator
  import opened Market
  import opened Engine
  import opened Ledger
  import opened Levels
  import opened Strategies
  import opened NoLookahead
  import opened WalkForward

  // --- what a run reads ---------------------------------------------------------

  /** The columns of the bars that an expression can name. */
  lemma ColumnsMean(bars: Bars, params: map<string, real>, std: Cells -> Num, i: nat)
    requires i < |bars|
    ensures var c, b := BarContext(bars, params, std), bars[i];
      && c.series.Keys == {"open", "high", "low", "close", "volume", "hl2", "hlc3", "ohlc4"}
      && (forall name :: name in c.series ==> |c.series[name]| == |bars| && c.series[name][i].Fin?)
      && c.series["open"][i].v == b.open && c.series["high"][i].v == b.high && c.series["low"][i].v == b.low
      && c.series["close"][i].v == b.close && c.series["volume"][i].v == b.volume
      && 2.0 * c.series["hl2"][i].v == b.high + b.low
      && 3.0 * c.series["hlc3"][i].v == b.high + b.low + b.close
      && 4.0 * c.series["ohlc4"][i].v == b.open + b.high + b.low + b.close
      && c.params.Keys == params.Keys && (forall name :: name in params ==> c.params[name] == Fin(params[name]))
  {
  }

  /** An entry condition that is not there never holds; another holds where its parsed text does. */
  predicate IsSignal(signal: seq<bool>, entry: Option<string>, c: Context)
    requires c.Aligned()
  {
    if entry.None? || entry.value == "" then |signal| == c.size && forall i :: 0 <= i < c.size ==> !signal[i]
    else Parse(entry.value).Ok? && EvaluateBool(c, Parse(entry.value).value) == Ok(signal)
  }

  /** The ATR is there exactly when a rule needs it, and where it is a number. */
  predicate IsAtr(atr: seq<Option<real>>, rules: ExitRules, bars: Bars)
    requires rules.Valid()
  {
    |atr| == |bars| && forall i :: 0 <= i < |bars| ==>
      if rules.atrStopMultiple.None? && rules.trailingAtrMultiple.None? then atr[i].None?
      else
        var cell := Atr(Column("high", bars), Column("low", bars), Column("close", bars), rules.atrLength)[i];
        if cell.Fin? then atr[i] == Some(cell.v) else atr[i].None?
  }

  /** A strategy's signals are its own two texts, the long one for longs. */
  lemma FeedsMean(s: Strategy, bars: Bars, std: Cells -> Num)
    requires s.rules.Valid()
    ensures var feed, c := MakeFeed(s, bars, std), BarContext(bars, s.params, std);
      feed.Ok? ==>
        && feed.value.bars == bars && IsSignal(feed.value.longs, s.longEntry, c) && IsSignal(feed.value.shorts, s.shortEntry, c)
        && IsAtr(feed.value.atr, s.rules, bars)
  {
    hide EvaluateBool, Parse, Atr, Known, BarContext, Column;
  }

  /** Nothing provides it: a name that is neither a column nor a parameter, or a call of no function. */
  predicate Unprovided(n: Node, params: map<string, real>) {
    || (n.Identifier? && n.name !in {"open", "high", "low", "close", "volume", "hl2", "hlc3", "ohlc4"} && n.name !in params)
    || (n.Call? && n.name !in {"sma", "ema", "rsi", "highest", "lowest", "stdev", "shift", "rising", "falling",
                               "crossover", "crossunder", "abs", "min", "max"})
  }

  predicate Refers(entry: Option<Node>, params: map<string, real>) {
    entry.Some? && exists n :: n in Preorder(entry.value) && Unprovided(n, params)
  }

  lemma KnownMeans(entry: Option<Node>, params: map<string, real>)
    ensures Known(entry, params) <==> !Refers(entry, params)
  {
    hide Preorder;
    forall n: Node
      ensures Unprovided(n, params) <==>
        !((n.Identifier? ==> n.name in BAR_SERIES || n.name in params) && (n.Call? ==> Arity(n.name).Some?))
    {
    }
    hide Unprovided, Arity;
  }

  lemma TextsMean(entry: Option<string>)
    ensures entry.None? || entry.value == "" ==> Compile(entry) == Ok(None)
    ensures entry.Some? && entry.value != "" ==>
      Compile(entry) == if Parse(entry.value).Ok? then Ok(Some(Parse(entry.value).value)) else Err(NotParsed(Parse(entry.value).error))
  {
    hide Parse;
  }

  /** Why a strategy is refused, in this order: a text that does not parse, no text at all, a name or function that
      nothing provides, fewer than two bars, or a condition that cannot be evaluated, the long one first.
    */
  lemma RefusalsMean(s: Strategy, bars: Bars, std: Cells -> Num)
    requires s.rules.Valid()
    ensures var feed, long, short, c :=
        MakeFeed(s, bars, std), Compile(s.longEntry), Compile(s.shortEntry), BarContext(bars, s.params, std);
      if long.Err? then feed == Err(long.error)
      else if short.Err? then feed == Err(short.error)
      else if long.value.None? && short.value.None? then feed == Err(NoEntry)
      else if Refers(long.value, s.params) || Refers(short.value, s.params) then feed == Err(UnknownReference)
      else if |bars| < 2 then feed == Err(TooFewBars)
      else if long.value.Some? && EvaluateBool(c, long.value.value).Err? then
        feed == Err(NotEvaluated(EvaluateBool(c, long.value.value).error))
      else if short.value.Some? && EvaluateBool(c, short.value.value).Err? then
        feed == Err(NotEvaluated(EvaluateBool(c, short.value.value).error))
      else feed.Ok?
  {
    var long, short := Compile(s.longEntry), Compile(s.shortEntry);
    if long.Ok? && short.Ok? {
      KnownMeans(long.value, s.params);
      KnownMeans(short.value, s.params);
    }
    hide EvaluateBool, Compile, AtrColumn, Known, Refers, BarContext;
  }

  // --- what closes a position inside a bar -------------------------------------------

  /** Minute bars inside the bar decide by themselves, the first that reaches a level closing at it; without any,
      the bar's own extremes do. The minutes inside are those from index a up to b.
    */
  lemma ResolvesMean(minutes: Bars, p: Position, high: real, low: real, start: int, end: int, a: nat, b: nat, k: nat)
    requires NonDecreasing(minutes) && start <= end && Between(minutes, start, end, a, b)
    requires a <= k <= b && forall j :: a <= j < k ==> HitWithin(p, minutes[j].high, minutes[j].low).None?
    ensures a == b ==> Resolve(minutes, p, high, low, start, end) == HitWithin(p, high, low)
    ensures k < b && HitWithin(p, minutes[k].high, minutes[k].low).Some? ==>
      Resolve(minutes, p, high, low, start, end) == HitWithin(p, minutes[k].high, minutes[k].low)
    ensures a < k == b ==> Resolve(minutes, p, high, low, start, end).None?
  {
    SliceBetween(minutes, start, end, a, b);
    hide MinuteSlice, HitWithin, NonDecreasing, Between;
    var fine := minutes[a..b];
    forall j | 0 <= j < k - a ensures HitWithin(p, fine[j].high, fine[j].low).None? { assert fine[j] == minutes[a + j]; }
    WalkMeans(p, fine, k - a);
    if k < b { assert fine[k - a] == minutes[k]; }
  }

  lemma {:induction false} WalkMeans(p: Position, fine: Bars, k: nat)
    requires k <= |fine| && forall j :: 0 <= j < k ==> HitWithin(p, fine[j].high, fine[j].low).None?
    ensures k < |fine| && HitWithin(p, fine[k].high, fine[k].low).Some? ==> WalkMinutes(p, fine) == HitWithin(p, fine[k].high, fine[k].low)
    ensures k == |fine| ==> WalkMinutes(p, fine).None?
  {
    hide HitWithin;
    if k > 0 { WalkMeans(p, fine[1..], k - 1); }
  }

  // --- every trade ------------------------------------------------------------------

  /** The account before trade j. */
  function Before(config: Config, trades: seq<Trade>, j: nat): real
    requires j <= |trades|
  {
    if j == 0 then config.initialCapital else trades[j - 1].equityAfter
  }

  /** A trade ends by time after exactly its bars, by an opposite signal on one. */
  predicate EndedFor(t: Trade, rules: ExitRules, feed: Feed)
    requires feed.Aligned()
  {
    && (t.reason.TimeExit? ==> rules.timeExitBars.Some? && t.exitIndex == t.entryIndex + rules.timeExitBars.value + 1)
    && (t.reason.OppositeSignal? ==>
          && rules.exitOnOpposite && 1 <= t.exitIndex <= |feed.bars|
          && if t.side.Long? then feed.shorts[t.exitIndex - 1] else feed.longs[t.exitIndex - 1])
  }

  /** A trade as large as the account before it allows, and its result in the account after it. */
  predicate Accounted(setup: Setup, feed: Feed, t: Trade, equity: real)
    requires feed.Aligned()
  {
    SizedBy(t, setup.config, equity) && ClosedFor(t, setup.config, equity) && EndedFor(t, setup.rules, feed)
  }

  predicate AllAccounted(setup: Setup, feed: Feed, trades: seq<Trade>)
    requires feed.Aligned()
  {
    forall j :: 0 <= j < |trades| ==> Accounted(setup, feed, trades[j], Before(setup.config, trades, j))
  }

  /** The state's own part: the account is what the last trade left, an open trade is sized by it, and its time is
      not up before bar i.
    */
  predicate Sound(setup: Setup, feed: Feed, s: State, i: int)
    requires feed.Aligned()
  {
    && AllAccounted(setup, feed, s.trades) && s.equity == Before(setup.config, s.trades, |s.trades|)
    && (s.position.Some? ==>
          && SizedBy(s.position.value.trade, setup.config, s.equity)
          && (setup.rules.timeExitBars.Some? ==> i <= s.position.value.trade.entryIndex + setup.rules.timeExitBars.value))
  }

  lemma ClosingIsSound(setup: Setup, feed: Feed, s: State, c: Trade, i: int)
    requires feed.Aligned() && Sound(setup, feed, s, i) && Accounted(setup, feed, c, s.equity)
    ensures Sound(setup, feed, CloseInto(s, c), i + 1)
  {
    var all := s.trades + [c];
    hide Accounted;
    forall j | 0 <= j < |all| ensures Accounted(setup, feed, all[j], Before(setup.config, all, j)) {
      if j < |s.trades| { assert Before(setup.config, all, j) == Before(setup.config, s.trades, j); }
    }
    assert c.equityAfter == Before(setup.config, all, |all|);
  }

  lemma SizedAlike(a: Trade, b: Trade, config: Config, equity: real)
    requires SizedBy(a, config, equity) && SameEntry(a, b) && a.leverage == b.leverage
    ensures SizedBy(b, config, equity)
  {
  }

  lemma {:induction false} AccrueKeepsLeverage(setup: Setup, p: Position, start: int, end: int, price: real)
    ensures Accrue(setup, p, start, end, price).trade.leverage == p.trade.leverage
    decreases end - p.nextFunding
  {
    if setup.config.applyFunding && p.nextFunding < end {
      AccrueKeepsLeverage(setup, Settle(setup, p, start, price), start, end, price);
    }
  }

  lemma ClosedIsAccounted(setup: Setup, feed: Feed, t: Trade, index: int, time: int, price: real, reason: ExitReason, equity: real)
    requires feed.Aligned() && SizedBy(t, setup.config, equity)
    requires !BySignal(Close(setup.config, t, index, time, price, reason, equity))
    ensures Accounted(setup, feed, Close(setup.config, t, index, time, price, reason, equity), equity)
  {
    ClosesMean(setup.config, t, index, time, price, reason, equity);
    CloseKeepsEntry(setup.config, t, index, time, price, reason, equity);
    SizedAlike(t, Close(setup.config, t, index, time, price, reason, equity), setup.config, equity);
    hide Close, SizedBy, ClosedFor;
  }

  lemma FillIsSound(setup: Setup, feed: Feed, i: nat, s: State)
    requires feed.Aligned() && i < |feed.bars| && Sound(setup, feed, s, i) && setup.rules.Valid()
    ensures Sound(setup, feed, Fill(setup, feed, i, s), i)
  {
    if s.pending.Some? && s.position.None? {
      OpensMean(setup.rules, setup.config, s.pending.value, i, feed.bars[i].time, feed.bars[i].open, s.equity,
                if i > 0 then feed.atr[i - 1] else None);
    }
    hide Open, SizedBy, AllAccounted;
  }

  lemma ManageIsSound(setup: Setup, feed: Feed, i: nat, s: State)
    requires feed.Aligned() && i < |feed.bars| && Sound(setup, feed, s, i)
    ensures var m := Manage(setup, feed, i, s); Sound(setup, feed, m, if m.position.Some? then i else i + 1)
  {
    if s.position.Some? {
      var bar, end := feed.bars[i], BarEnd(feed.bars, i);
      var p := UpdateStops(setup.rules, s.position.value, bar, feed.atr[i]);
      StopsKeepTrade(setup.rules, s.position.value, bar, feed.atr[i]);
      var hit := Resolve(setup.minutes, p, bar.high, bar.low, bar.time, end);
      hide Close, UpdateStops, Accrue, Resolve, SizedBy, AllAccounted, Accounted;
      if hit.Some? {
        HitIsLevel(setup.minutes, p, bar.high, bar.low, bar.time, end);
        CloseKeepsEntry(setup.config, p.trade, i, bar.time, hit.value.1, hit.value.0, s.equity);
        ClosedIsAccounted(setup, feed, p.trade, i, bar.time, hit.value.1, hit.value.0, s.equity);
        ClosingIsSound(setup, feed, s, Close(setup.config, p.trade, i, bar.time, hit.value.1, hit.value.0, s.equity), i);
      } else {
        AccrueKeepsEntry(setup, p, bar.time, end, bar.close);
        AccrueKeepsLeverage(setup, p, bar.time, end, bar.close);
        var held := Excursion(Accrue(setup, p, bar.time, end, bar.close), bar.high, bar.low);
        SizedAlike(s.position.value.trade, held.trade, setup.config, s.equity);
      }
    }
  }

  lemma SignalIsSound(setup: Setup, feed: Feed, i: nat, s: State)
    requires feed.Aligned() && i < |feed.bars| && Sound(setup, feed, s, i) && setup.rules.Valid()
    requires s.position.Some? ==> s.position.value.trade.entryIndex <= i
    ensures i + 1 < |feed.bars| ==> Sound(setup, feed, Signal(setup, feed, i, s), i + 1)
    ensures i + 1 == |feed.bars| ==> Sound(setup, feed, Signal(setup, feed, i, s), i)
  {
    if s.position.Some? {
      var t := s.position.value.trade;
      SignalExitsMean(setup.rules, t, i, feed.longs[i], feed.shorts[i]);
      var reason := SignalExit(setup.rules, t, i, feed.longs[i], feed.shorts[i]);
      hide Close, SignalExit, SizedBy, AllAccounted;
      if reason.Some? && i + 1 < |feed.bars| {
        var next := feed.bars[i + 1];
        var c := Close(setup.config, t, i + 1, next.time, next.open, reason.value, s.equity);
        ClosesMean(setup.config, t, i + 1, next.time, next.open, reason.value, s.equity);
        CloseKeepsEntry(setup.config, t, i + 1, next.time, next.open, reason.value, s.equity);
        CloseKeepsLeverage(setup.config, t, i + 1, next.time, next.open, reason.value, s.equity);
        SizedAlike(t, c, setup.config, s.equity);
        assert EndedFor(c, setup.rules, feed);
        ClosingIsSound(setup, feed, s, c, i);
      }
    }
    hide Close, SignalExit, SizedBy, AllAccounted;
  }

  lemma CloseKeepsLeverage(config: Config, t: Trade, index: int, time: int, price: real, reason: ExitReason, equity: real)
    ensures Close(config, t, index, time, price, reason, equity).leverage == t.leverage
  {
  }

  /** The bar by which the state is sound after k bars: the next one, or the last. */
  function SoundBy(feed: Feed, k: nat): int {
    if k == |feed.bars| && k > 0 then k - 1 else k
  }

  lemma StepIsSound(setup: Setup, feed: Feed, i: nat, s: State)
    requires feed.Aligned() && i < |feed.bars| && Kept(setup, feed, i, s) && Sound(setup, feed, s, i) && setup.rules.Valid()
    ensures Sound(setup, feed, Step(setup, feed, i, s), SoundBy(feed, i + 1))
  {
    hide InOrder, Balanced, QueuedOnSignal, Fill, Manage, Signal, AllAccounted, SizedBy;
    var f := Fill(setup, feed, i, s);
    FillKeepsOrder(setup, feed, i, s);
    FillKeepsAccount(setup, feed, i, s);
    FillIsSound(setup, feed, i, s);
    var m := Manage(setup, feed, i, f);
    ManageKeepsOrder(setup, feed, i, f);
    ManageIsSound(setup, feed, i, f);
    EnteredBy(setup.config, feed, m, i);
    if m.position.None? { assert Sound(setup, feed, m, i); }
    SignalIsSound(setup, feed, i, m);
    MarkIsSound(setup, feed, i, Signal(setup, feed, i, m));
  }

  lemma EnteredBy(config: Config, feed: Feed, s: State, i: nat)
    requires feed.Aligned() && InOrder(config, feed, s, i)
    ensures s.position.Some? ==> s.position.value.trade.entryIndex <= i
  {
  }

  lemma MarkIsSound(setup: Setup, feed: Feed, i: nat, s: State)
    requires feed.Aligned() && i < |feed.bars|
    ensures forall bar: int :: Sound(setup, feed, s, bar) ==> Sound(setup, feed, Mark(feed, i, s), bar)
  {
    hide AllAccounted, SizedBy;
  }

  lemma {:induction false} EveryBarIsSound(setup: Setup, feed: Feed, k: nat)
    requires feed.Aligned() && k <= |feed.bars| && setup.rules.Valid()
    ensures Sound(setup, feed, After(setup, feed, k), SoundBy(feed, k))
  {
    hide Step, Kept, Sound;
    if k == 0 {
      StartIsSound(setup, feed);
    } else {
      EveryBarIsSound(setup, feed, k - 1);
      EveryBarKeeps(setup, feed, k - 1);
      StepIsSound(setup, feed, k - 1, After(setup, feed, k - 1));
    }
  }

  lemma StartIsSound(setup: Setup, feed: Feed)
    requires feed.Aligned()
    ensures Sound(setup, feed, Start(setup.config), 0)
  {
  }

  /** Every trade of every run: its margin is the configured share of the account before it, its quantity what the
      leverage makes of that at the fill, its result the move of the price times the quantity less both fees and
      the funding, and the account after it that much more; one that ran out of time lasted exactly its bars, and
      one ended by an opposite signal had it.
    */
  lemma EveryTradeIsAccounted(setup: Setup, feed: Feed)
    requires feed.Aligned() && |feed.bars| >= 2 && setup.rules.Valid()
    ensures AllAccounted(setup, feed, Run(setup, feed).trades)
  {
    var n := |feed.bars|;
    EveryBarIsSound(setup, feed, n);
    PathLength(setup, feed, n);
    var s := After(setup, feed, n);
    hide After, Close, SizedBy, AllAccounted, Accounted;
    if s.position.Some? {
      var bar, t := feed.bars[n - 1], s.position.value.trade;
      CloseKeepsEntry(setup.config, t, n - 1, bar.time, bar.close, EndOfData, s.equity);
      ClosedIsAccounted(setup, feed, t, n - 1, bar.time, bar.close, EndOfData, s.equity);
      ClosingIsSound(setup, feed, s, Close(setup.config, t, n - 1, bar.time, bar.close, EndOfData, s.equity), SoundBy(feed, n));
    }
  }

  /** Entered at the open after a bar whose close asked for the side, a short only where no long was asked for. */
  predicate EnteredAfter(t: Trade, longs: seq<bool>, shorts: seq<bool>, bars: Bars, config: Config) {
    && 1 <= t.entryIndex < |bars| && |longs| == |shorts| == |bars| && t.entryTime == bars[t.entryIndex].time
    && (if t.side.Long? then longs[t.entryIndex - 1] else shorts[t.entryIndex - 1] && !longs[t.entryIndex - 1])
    && FilledAt(t.entryPrice, bars[t.entryIndex].open, config.slippageBps, t.side.Long?)
  }

  lemma EntriesFollowSignals(setup: Setup, feed: Feed)
    requires feed.Aligned() && |feed.bars| >= 2
    ensures forall t :: t in Run(setup, feed).trades ==> EnteredAfter(t, feed.longs, feed.shorts, feed.bars, setup.config)
  {
    hide Run, Balanced, InOrder, EnteredAfter;
    EveryRunBalances(setup, feed);
    var trades := Run(setup, feed).trades;
    forall t | t in trades ensures EnteredAfter(t, feed.longs, feed.shorts, feed.bars, setup.config) {
      var j :| 0 <= j < |trades| && trades[j] == t;
      TradeEntered(setup.config, feed, Run(setup, feed), |feed.bars|, j);
    }
  }

  lemma TradeEntered(config: Config, feed: Feed, s: State, bound: nat, j: nat)
    requires feed.Aligned() && InOrder(config, feed, s, bound) && j < |s.trades|
    ensures EnteredAfter(s.trades[j], feed.longs, feed.shorts, feed.bars, config)
  {
    var t := s.trades[j];
    assert EnteredOnSignal(config, feed, t);
    hide InOrder, LeftInOrder;
    SlipFills(feed.bars[t.entryIndex].open, config.slippageBps, t.side.Long?);
    hide Slip, FilledAt;
  }

  /** From the text to the trades: a long is entered at the open after a bar on which the long text holds, a short
      after one on which the short text holds and the long one does not.
    */
  lemma TradesFollowTheText(s: Strategy, config: Config, funding: seq<FundingEvent>, minutes: Bars, bars: Bars, std: Cells -> Num)
    requires s.rules.Valid() && RunStrategy(s, config, funding, minutes, bars, std).Ok?
    ensures var c, trades := BarContext(bars, s.params, std), RunStrategy(s, config, funding, minutes, bars, std).value.trades;
      exists longs, shorts :: IsSignal(longs, s.longEntry, c) && IsSignal(shorts, s.shortEntry, c)
        && forall t :: t in trades ==> EnteredAfter(t, longs, shorts, bars, config)
  {
    var feed, setup := MakeFeed(s, bars, std).value, Setup(s.rules, config, funding, minutes);
    FeedsMean(s, bars, std);
    EntriesFollowSignals(setup, feed);
    hide MakeFeed, Run, IsSignal, IsAtr, EnteredAfter, BarContext;
  }
}
