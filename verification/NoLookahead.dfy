/** A backtest cannot see past the bar it is on. */
module NoLookahead {
  import opened Wrappers
  import opened Num
  import opened Series
  import opened Syntax
  import opened Evaluator
  import opened Causality
  import opened Market
  import opened Engine
  import opened Strategies

  // --- minute bars ------------------------------------------------------------

  predicate NonDecreasing(bars: Bars) {
    forall i, j :: 0 <= i < j < |bars| ==> bars[i].time <= bars[j].time
  }

  /** The minute bars that start before a time. */
  function Before(minutes: Bars, end: int): Bars {
    minutes[..LowerBound(minutes, end)]
  }

  lemma {:induction false} LowerBoundMonotone(minutes: Bars, s: int, t: int)
    requires s <= t
    ensures LowerBound(minutes, s) <= LowerBound(minutes, t)
  {
    if |minutes| > 0 && minutes[0].time < s { LowerBoundMonotone(minutes[1..], s, t); }
  }

  lemma {:induction false} LowerBoundOfPrefix(minutes: Bars, s: int, n: nat)
    requires LowerBound(minutes, s) <= n <= |minutes|
    ensures LowerBound(minutes[..n], s) == LowerBound(minutes, s)
  {
    if |minutes| > 0 && minutes[0].time < s {
      assert minutes[..n][1..] == minutes[1..][..n - 1];
      LowerBoundOfPrefix(minutes[1..], s, n - 1);
    }
  }

  /** A slice that ends by `limit` can be cut out of the minutes before `limit`. */
  lemma SliceLocal(minutes: Bars, start: int, end: int, limit: int)
    requires end <= limit
    ensures MinuteSlice(minutes, start, end) == MinuteSlice(Before(minutes, limit), start, end)
  {
    var n := LowerBound(minutes, limit);
    LowerBoundMonotone(minutes, end, limit);
    LowerBoundOfPrefix(minutes, end, n);
    if start <= end {
      LowerBoundMonotone(minutes, start, limit);
      LowerBoundOfPrefix(minutes, start, n);
      var lo, hi := LowerBound(minutes, start), LowerBound(minutes, end);
      if lo < hi { assert minutes[..n][lo..hi] == minutes[lo..hi]; }
    } else {
      LowerBoundMonotone(minutes, end, start);
      LowerBoundMonotone(Before(minutes, limit), end, start);
    }
  }

  // --- the engine ---------------------------------------------------------------

  /** Two feeds alike on bars 0..k and in the time and open of bar k + 1. */
  predicate AlikeThrough(a: Feed, b: Feed, k: nat) {
    && a.Aligned() && b.Aligned() && k + 1 < |a.bars| && k + 1 < |b.bars|
    && a.bars[..k + 1] == b.bars[..k + 1] && a.longs[..k + 1] == b.longs[..k + 1]
    && a.shorts[..k + 1] == b.shorts[..k + 1] && a.atr[..k + 1] == b.atr[..k + 1]
    && a.bars[k + 1].time == b.bars[k + 1].time && a.bars[k + 1].open == b.bars[k + 1].open
  }

  /** Two setups alike but for minute bars at or after `limit`. */
  predicate AlikeBefore(x: Setup, y: Setup, limit: int) {
    x.rules == y.rules && x.config == y.config && x.funding == y.funding && Before(x.minutes, limit) == Before(y.minutes, limit)
  }

  lemma AlikeAt(a: Feed, b: Feed, k: nat, i: nat)
    requires AlikeThrough(a, b, k) && i <= k
    ensures a.bars[i] == b.bars[i] && a.longs[i] == b.longs[i] && a.shorts[i] == b.shorts[i] && a.atr[i] == b.atr[i]
    ensures a.bars[i + 1].time == b.bars[i + 1].time && a.bars[i + 1].open == b.bars[i + 1].open
    ensures i > 0 ==> a.atr[i - 1] == b.atr[i - 1]
  {
    assert a.bars[..k + 1][i] == b.bars[..k + 1][i];
    assert a.longs[..k + 1][i] == b.longs[..k + 1][i] && a.shorts[..k + 1][i] == b.shorts[..k + 1][i];
    assert a.atr[..k + 1][i] == b.atr[..k + 1][i];
    if i > 0 { assert a.atr[..k + 1][i - 1] == b.atr[..k + 1][i - 1]; }
    if i < k { assert a.bars[..k + 1][i + 1] == b.bars[..k + 1][i + 1]; }
  }

  lemma {:induction false} AccrueOfSetup(x: Setup, y: Setup, p: Position, start: int, end: int, price: real)
    requires x.config == y.config && x.funding == y.funding
    ensures Accrue(x, p, start, end, price) == Accrue(y, p, start, end, price)
    decreases end - p.nextFunding
  {
    hide Settle;
    SettleOfSetup(x, y, p, start, price);
    if x.config.applyFunding && p.nextFunding < end {
      SettleAdvances(x, p, start, price);
      AccrueOfSetup(x, y, Settle(x, p, start, price), start, end, price);
    }
  }

  lemma SettleOfSetup(x: Setup, y: Setup, p: Position, start: int, price: real)
    requires x.funding == y.funding
    ensures Settle(x, p, start, price) == Settle(y, p, start, price)
  {
  }

  lemma SettleAdvances(x: Setup, p: Position, start: int, price: real)
    ensures Settle(x, p, start, price).nextFunding == p.nextFunding + FUNDING_INTERVAL_MS
  {
  }

  lemma ManageLocal(x: Setup, y: Setup, a: Feed, b: Feed, i: nat, s: State, limit: int)
    requires a.Aligned() && b.Aligned() && i + 1 < |a.bars| && i + 1 < |b.bars|
    requires a.bars[i] == b.bars[i] && a.atr[i] == b.atr[i] && a.bars[i + 1].time == b.bars[i + 1].time <= limit
    requires AlikeBefore(x, y, limit)
    ensures Manage(x, a, i, s) == Manage(y, b, i, s)
  {
    if s.position.Some? {
      var bar, end := a.bars[i], a.bars[i + 1].time;
      SliceLocal(x.minutes, bar.time, end, limit);
      SliceLocal(y.minutes, bar.time, end, limit);
      var p := UpdateStops(x.rules, s.position.value, bar, a.atr[i]);
      AccrueOfSetup(x, y, p, bar.time, end, bar.close);
      hide UpdateStops, WalkMinutes, HitWithin, Accrue, Excursion, Close, MinuteSlice, Before;
    }
  }

  lemma StepLocal(x: Setup, y: Setup, a: Feed, b: Feed, i: nat, k: nat, s: State)
    requires AlikeThrough(a, b, k) && i <= k && Increasing(a.bars) && AlikeBefore(x, y, a.bars[k + 1].time)
    ensures Step(x, a, i, s) == Step(y, b, i, s)
  {
    hide Open, Manage, Close, SignalExit, Unrealised, Before;
    AlikeAt(a, b, k, i);
    FillLocal(x, y, a, b, i, s);
    ManageLocal(x, y, a, b, i, Fill(x, a, i, s), a.bars[k + 1].time);
    hide Fill;
  }

  lemma FillLocal(x: Setup, y: Setup, a: Feed, b: Feed, i: nat, s: State)
    requires a.Aligned() && b.Aligned() && i < |a.bars| && i < |b.bars| && x.rules == y.rules && x.config == y.config
    requires a.bars[i] == b.bars[i] && (i > 0 ==> a.atr[i - 1] == b.atr[i - 1])
    ensures Fill(x, a, i, s) == Fill(y, b, i, s)
  {
    hide Open;
  }

  /** The loop's state after bar k is settled by bars 0..k, the time and open of bar k + 1, and the minute
      bars before that time.
    */
  lemma {:induction false} StateIsCausal(x: Setup, y: Setup, a: Feed, b: Feed, i: nat, k: nat)
    requires AlikeThrough(a, b, k) && i <= k + 1 && Increasing(a.bars) && AlikeBefore(x, y, a.bars[k + 1].time)
    ensures After(x, a, i) == After(y, b, i)
  {
    hide Step, Before;
    if i > 0 {
      StateIsCausal(x, y, a, b, i - 1, k);
      StepLocal(x, y, a, b, i - 1, k, After(x, a, i - 1));
    }
  }

  // --- the whole strategy ---------------------------------------------------------

  lemma ColumnCut(name: string, bars: Bars, n: nat)
    requires name in BAR_SERIES && n <= |bars|
    ensures Column(name, bars[..n]) == Column(name, bars)[..n] && |Column(name, bars)| == |bars|
  {
    hide ColumnCell;
  }

  lemma ContextCut(bars: Bars, params: map<string, real>, std: Cells -> Num, n: nat)
    requires n <= |bars|
    ensures CutContext(BarContext(bars, params, std), n) == BarContext(bars[..n], params, std)
  {
    hide Column;
    forall name | name in BAR_SERIES ensures Column(name, bars[..n]) == Column(name, bars)[..n] {
      ColumnCut(name, bars, n);
    }
    assert forall name :: name in BAR_SERIES ==> Column(name, bars[..n]) == Column(name, bars)[..n];
    assert CutContext(BarContext(bars, params, std), n).series == BarContext(bars[..n], params, std).series;
  }

  lemma ConditionCut(entry: Option<Node>, c: Context, n: nat)
    requires c.Aligned() && 1 <= n <= c.size <= MAX_BARS
    ensures var whole, part := Condition(entry, c), Condition(entry, CutContext(c, n));
      if whole.Ok? then part == Ok(whole.value[..n]) else part == whole
  {
    if entry.Some? {
      SignalIsCausal(c, entry.value, n);
      hide EvaluateBool;
    } else {
      assert Condition(entry, CutContext(c, n)).value == Condition(entry, c).value[..n];
    }
  }

  lemma AtrColumnCut(rules: ExitRules, bars: Bars, n: nat)
    requires rules.Valid() && n <= |bars|
    ensures AtrColumn(rules, bars[..n]) == AtrColumn(rules, bars)[..n]
  {
    hide Column, TrueRange, SmoothCell;
    ColumnCut("high", bars, n);
    ColumnCut("low", bars, n);
    ColumnCut("close", bars, n);
    var high, low, close := Column("high", bars), Column("low", bars), Column("close", bars);
    AtrCausal(high, low, close, n, rules.atrLength);
    OptionalCut(Atr(high, low, close, rules.atrLength), n);
    hide Optional;
  }

  lemma OptionalCut(v: Cells, n: nat)
    requires n <= |v|
    ensures Optional(v[..n]) == Optional(v)[..n]
  {
  }

  /** Two feeds a strategy makes of bars alike through bar k are alike through bar k. */
  lemma FeedsAlike(s: Strategy, std: Cells -> Num, xs: Bars, ys: Bars, k: nat)
    requires s.rules.Valid() && k + 1 < |xs| <= MAX_BARS && k + 1 < |ys| <= MAX_BARS && xs[..k + 1] == ys[..k + 1]
    requires xs[k + 1].time == ys[k + 1].time && xs[k + 1].open == ys[k + 1].open
    ensures var a, b := MakeFeed(s, xs, std), MakeFeed(s, ys, std);
      if a.Ok? then b.Ok? && AlikeThrough(a.value, b.value, k) else a == b
  {
    hide Preorder, Condition, AtrColumn, Compile, BarContext, Known;
    var cx, cy := BarContext(xs, s.params, std), BarContext(ys, s.params, std);
    ContextCut(xs, s.params, std, k + 1);
    ContextCut(ys, s.params, std, k + 1);
    AtrColumnCut(s.rules, xs, k + 1);
    AtrColumnCut(s.rules, ys, k + 1);
    var long, short := Compile(s.longEntry), Compile(s.shortEntry);
    if long.Ok? && short.Ok? {
      ConditionCut(long.value, cx, k + 1);
      ConditionCut(long.value, cy, k + 1);
      ConditionCut(short.value, cx, k + 1);
      ConditionCut(short.value, cy, k + 1);
    }
  }

  /** No lookahead over a whole run, from source text to account: on two markets alike through bar k and in
      the time and open of bar k + 1, with minute bars alike before that time, a strategy is refused for the
      same reason or has the same trades, equity, open position and queued signal after bar k.
    */
  lemma NoStrategySeesTheFuture(s: Strategy, config: Config, funding: seq<FundingEvent>, std: Cells -> Num,
                                xs: Bars, xMinutes: Bars, ys: Bars, yMinutes: Bars, k: nat)
    requires s.rules.Valid() && Increasing(xs) && k + 1 < |xs| <= MAX_BARS && k + 1 < |ys| <= MAX_BARS
    requires xs[..k + 1] == ys[..k + 1] && xs[k + 1].time == ys[k + 1].time && xs[k + 1].open == ys[k + 1].open
    requires Before(xMinutes, xs[k + 1].time) == Before(yMinutes, xs[k + 1].time)
    ensures var a, b := MakeFeed(s, xs, std), MakeFeed(s, ys, std);
      if a.Err? then a == b
      else b.Ok? && After(Setup(s.rules, config, funding, xMinutes), a.value, k + 1)
                 == After(Setup(s.rules, config, funding, yMinutes), b.value, k + 1)
  {
    hide MakeFeed, Before, After;
    FeedsAlike(s, std, xs, ys, k);
    var a, b := MakeFeed(s, xs, std), MakeFeed(s, ys, std);
    if a.Ok? {
      StateIsCausal(Setup(s.rules, config, funding, xMinutes), Setup(s.rules, config, funding, yMinutes),
                    a.value, b.value, k + 1, k);
    }
  }
}
