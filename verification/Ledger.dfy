/** What every run keeps: the account is the sum of its trades, and trades follow signals one at a time. */
module Ledger {
  import opened Wrappers
  import opened Market
  import opened Engine

  // --- the account ----------------------------------------------------------

  function NetTotal(trades: seq<Trade>): real {
    if |trades| == 0 then 0.0 else NetTotal(trades[..|trades| - 1]) + trades[|trades| - 1].netPnl
  }

  /** The account is the initial capital plus every net result, and each trade recorded it so. */
  predicate Balanced(config: Config, equity: real, trades: seq<Trade>) {
    && equity == config.initialCapital + NetTotal(trades)
    && forall j :: 0 <= j < |trades| ==> trades[j].equityAfter == config.initialCapital + NetTotal(trades[..j + 1])
  }

  lemma CloseBalances(config: Config, s: State, t: Trade)
    requires Balanced(config, s.equity, s.trades) && t.equityAfter == s.equity + t.netPnl
    ensures Balanced(config, CloseInto(s, t).equity, CloseInto(s, t).trades)
  {
    var all := s.trades + [t];
    assert all[..|all| - 1] == s.trades;
    forall j | 0 <= j < |all| ensures all[j].equityAfter == config.initialCapital + NetTotal(all[..j + 1]) {
      if j < |s.trades| { assert all[..j + 1] == s.trades[..j + 1]; } else { assert all[..j + 1] == all; }
    }
  }

  // --- the schedule ---------------------------------------------------------

  /** The previous close asked for this side: a short only when it did not ask for a long. */
  predicate Signalled(feed: Feed, side: Side, i: nat)
    requires feed.Aligned() && 1 <= i <= |feed.bars|
  {
    if side.Long? then feed.longs[i - 1] else feed.shorts[i - 1] && !feed.longs[i - 1]
  }

  /** Entered at the open of a bar whose predecessor signalled. */
  predicate EnteredOnSignal(config: Config, feed: Feed, t: Trade)
    requires feed.Aligned()
  {
    && 1 <= t.entryIndex < |feed.bars|
    && Signalled(feed, t.side, t.entryIndex)
    && t.entryTime == feed.bars[t.entryIndex].time
    && t.entryPrice == Slip(feed.bars[t.entryIndex].open, config.slippageBps, t.side.Long?)
  }

  /** Left at a bar no earlier than the entry: a signal exit at a later open, the last one at a close. */
  predicate LeftInOrder(config: Config, feed: Feed, t: Trade)
    requires feed.Aligned()
  {
    && t.entryIndex <= t.exitIndex < |feed.bars|
    && t.exitTime == feed.bars[t.exitIndex].time
    && (t.reason.TimeExit? || t.reason.OppositeSignal? ==>
        t.entryIndex < t.exitIndex && t.exitPrice == Slip(feed.bars[t.exitIndex].open, config.slippageBps, t.side.Short?))
    && (t.reason.EndOfData? ==>
        t.exitIndex == |feed.bars| - 1 && t.exitPrice == Slip(feed.bars[t.exitIndex].close, config.slippageBps, t.side.Short?))
  }

  /** No two trades overlap, and everything happened by bar `bound`. */
  predicate InOrder(config: Config, feed: Feed, s: State, bound: nat)
    requires feed.Aligned()
  {
    && (forall j :: 0 <= j < |s.trades| ==>
        && EnteredOnSignal(config, feed, s.trades[j]) && LeftInOrder(config, feed, s.trades[j])
        && s.trades[j].exitIndex <= bound)
    && (forall j :: 0 <= j < |s.trades| - 1 ==> s.trades[j].exitIndex <= s.trades[j + 1].entryIndex)
    && (s.position.Some? ==>
        && EnteredOnSignal(config, feed, s.position.value.trade) && s.position.value.trade.entryIndex <= bound
        && (|s.trades| > 0 ==> s.trades[|s.trades| - 1].exitIndex <= s.position.value.trade.entryIndex))
  }

  /** A queued signal waits for a flat account, and the last close gave it. */
  predicate QueuedOnSignal(feed: Feed, s: State, i: nat)
    requires feed.Aligned() && i <= |feed.bars|
  {
    s.pending.Some? ==> s.position.None? && i >= 1 && Signalled(feed, s.pending.value, i)
  }

  lemma OpenEnters(setup: Setup, feed: Feed, side: Side, i: nat, equity: real, atr: Option<real>)
    requires feed.Aligned() && 1 <= i < |feed.bars| && Signalled(feed, side, i)
    ensures var p := Open(setup.rules, setup.config, side, i, feed.bars[i].time, feed.bars[i].open, equity, atr);
      EnteredOnSignal(setup.config, feed, p.trade) && p.trade.entryIndex == i
  {
    hide Slip, Signalled, Away, NextFundingAfter;
  }

  lemma FillKeepsOrder(setup: Setup, feed: Feed, i: nat, s: State)
    requires feed.Aligned() && i < |feed.bars| && InOrder(setup.config, feed, s, i) && QueuedOnSignal(feed, s, i)
    ensures InOrder(setup.config, feed, Fill(setup, feed, i, s), i) && Fill(setup, feed, i, s).pending.None?
  {
    hide EnteredOnSignal, LeftInOrder, Open;
    if s.pending.Some? {
      OpenEnters(setup, feed, s.pending.value, i, s.equity, if i > 0 then feed.atr[i - 1] else None);
    }
  }

  /** Managing a position leaves its entry alone. */
  predicate SameEntry(a: Trade, b: Trade) {
    && a.side == b.side && a.entryIndex == b.entryIndex && a.entryTime == b.entryTime && a.entryPrice == b.entryPrice
    && a.quantity == b.quantity && a.margin == b.margin && a.entryFee == b.entryFee && a.liquidation == b.liquidation
  }

  lemma {:induction false} AccrueKeepsEntry(setup: Setup, p: Position, start: int, end: int, price: real)
    ensures SameEntry(Accrue(setup, p, start, end, price).trade, p.trade)
    decreases end - p.nextFunding
  {
    if setup.config.applyFunding && p.nextFunding < end {
      AccrueKeepsEntry(setup, Settle(setup, p, start, price), start, end, price);
    }
  }

  lemma StopsKeepTrade(rules: ExitRules, p: Position, bar: Bar, atr: Option<real>)
    ensures UpdateStops(rules, p, bar, atr).trade == p.trade
  {
    hide Away;
  }

  lemma CloseKeepsEntry(config: Config, t: Trade, index: int, time: int, price: real, reason: ExitReason, equity: real)
    ensures var c := Close(config, t, index, time, price, reason, equity);
      && SameEntry(c, t) && c.exitIndex == index && c.exitTime == time && c.reason == reason
      && c.equityAfter == equity + c.netPnl
      && (!reason.Liquidation? ==> c.exitPrice == Slip(price, config.slippageBps, t.side.Short?))
  {
    hide Slip;
  }

  lemma CloseKeepsOrder(config: Config, feed: Feed, s: State, t: Trade, bound: nat)
    requires feed.Aligned() && InOrder(config, feed, s, bound) && s.position.Some?
    requires SameEntry(t, s.position.value.trade) && LeftInOrder(config, feed, t) && t.exitIndex <= bound
    ensures InOrder(config, feed, CloseInto(s, t), bound)
  {
    hide LeftInOrder, Slip, Signalled;
  }

  lemma ManageKeepsOrder(setup: Setup, feed: Feed, i: nat, s: State)
    requires feed.Aligned() && i < |feed.bars| && InOrder(setup.config, feed, s, i) && s.pending.None?
    requires Balanced(setup.config, s.equity, s.trades)
    ensures var m := Manage(setup, feed, i, s);
      InOrder(setup.config, feed, m, i) && m.pending.None? && Balanced(setup.config, m.equity, m.trades)
  {
    if s.position.Some? {
      hide Close, LeftInOrder, UpdateStops, Accrue, Resolve, Balanced, InOrder;
      var bar, end := feed.bars[i], BarEnd(feed.bars, i);
      var p := UpdateStops(setup.rules, s.position.value, bar, feed.atr[i]);
      StopsKeepTrade(setup.rules, s.position.value, bar, feed.atr[i]);
      var hit := Resolve(setup.minutes, p, bar.high, bar.low, bar.time, end);
      if hit.Some? {
        HitIsLevel(setup.minutes, p, bar.high, bar.low, bar.time, end);
        ManageClose(setup, feed, i, s, p.trade, hit.value.1, hit.value.0);
      } else {
        AccrueKeepsEntry(setup, p, bar.time, end, bar.close);
        var held := Excursion(Accrue(setup, p, bar.time, end, bar.close), bar.high, bar.low);
        HoldKeepsOrder(setup.config, feed, s, held, i);
      }
    }
  }

  lemma {:induction false} WalkHitIsLevel(p: Position, fine: Bars)
    ensures WalkMinutes(p, fine).Some? ==> WalkMinutes(p, fine).value.0 in {Liquidation, StopLoss, TakeProfit}
  {
    if |fine| > 0 { WalkHitIsLevel(p, fine[1..]); }
  }

  /** Inside a bar only the three levels can close a position. */
  lemma HitIsLevel(minutes: Bars, p: Position, high: real, low: real, start: int, end: int)
    ensures var h := Resolve(minutes, p, high, low, start, end);
      h.Some? ==> h.value.0 in {Liquidation, StopLoss, TakeProfit}
  {
    WalkHitIsLevel(p, MinuteSlice(minutes, start, end));
    hide WalkMinutes, MinuteSlice;
  }

  lemma ManageClose(setup: Setup, feed: Feed, i: nat, s: State, t: Trade, price: real, reason: ExitReason)
    requires feed.Aligned() && i < |feed.bars| && InOrder(setup.config, feed, s, i) && s.position.Some?
    requires Balanced(setup.config, s.equity, s.trades) && t == s.position.value.trade
    requires reason in {Liquidation, StopLoss, TakeProfit}
    ensures var c := CloseInto(s, Close(setup.config, t, i, feed.bars[i].time, price, reason, s.equity));
      InOrder(setup.config, feed, c, i) && Balanced(setup.config, c.equity, c.trades)
  {
    hide Close, Balanced, Slip, Signalled;
    var c := Close(setup.config, t, i, feed.bars[i].time, price, reason, s.equity);
    CloseKeepsEntry(setup.config, t, i, feed.bars[i].time, price, reason, s.equity);
    CloseKeepsOrder(setup.config, feed, s, c, i);
    CloseBalances(setup.config, s, c);
  }

  lemma HoldKeepsOrder(config: Config, feed: Feed, s: State, held: Position, bound: nat)
    requires feed.Aligned() && InOrder(config, feed, s, bound) && s.position.Some?
    requires SameEntry(held.trade, s.position.value.trade)
    ensures InOrder(config, feed, s.(position := Some(held)), bound)
  {
    hide LeftInOrder, Slip, Signalled;
  }

  lemma LaterBound(config: Config, feed: Feed, s: State, bound: nat)
    requires feed.Aligned() && InOrder(config, feed, s, bound)
    ensures InOrder(config, feed, s, bound + 1)
  {
    hide EnteredOnSignal, LeftInOrder;
  }

  lemma SignalKeepsOrder(setup: Setup, feed: Feed, i: nat, s: State)
    requires feed.Aligned() && i < |feed.bars| && InOrder(setup.config, feed, s, i) && s.pending.None?
    requires Balanced(setup.config, s.equity, s.trades)
    ensures var n := Signal(setup, feed, i, s);
      && InOrder(setup.config, feed, n, i + 1) && QueuedOnSignal(feed, n, i + 1)
      && Balanced(setup.config, n.equity, n.trades)
  {
    hide Balanced, InOrder, Close, Slip;
    LaterBound(setup.config, feed, s, i);
    if s.position.Some? {
      var t := s.position.value.trade;
      var reason := SignalExit(setup.rules, t, i, feed.longs[i], feed.shorts[i]);
      if reason.Some? && i + 1 < |feed.bars| {
        SignalClose(setup, feed, i, s, reason.value);
        var c := CloseInto(s, Close(setup.config, t, i + 1, feed.bars[i + 1].time, feed.bars[i + 1].open, reason.value, s.equity));
        PendingKeepsOrder(setup.config, feed, c, if feed.longs[i] then Long else Short, i + 1);
      }
    } else {
      PendingKeepsOrder(setup.config, feed, s, Long, i + 1);
      PendingKeepsOrder(setup.config, feed, s, Short, i + 1);
      assert s.(pending := None) == s;
    }
  }

  lemma PendingKeepsOrder(config: Config, feed: Feed, s: State, side: Side, bound: nat)
    requires feed.Aligned() && InOrder(config, feed, s, bound)
    ensures InOrder(config, feed, s.(pending := Some(side)), bound)
  {
    hide EnteredOnSignal, LeftInOrder;
  }

  lemma SignalClose(setup: Setup, feed: Feed, i: nat, s: State, reason: ExitReason)
    requires feed.Aligned() && i + 1 < |feed.bars| && InOrder(setup.config, feed, s, i) && s.position.Some?
    requires Balanced(setup.config, s.equity, s.trades) && reason in {TimeExit, OppositeSignal}
    ensures var next := feed.bars[i + 1];
      var c := CloseInto(s, Close(setup.config, s.position.value.trade, i + 1, next.time, next.open, reason, s.equity));
      InOrder(setup.config, feed, c, i + 1) && Balanced(setup.config, c.equity, c.trades)
  {
    hide Close, Balanced, Slip, Signalled;
    var t, next := s.position.value.trade, feed.bars[i + 1];
    var c := Close(setup.config, t, i + 1, next.time, next.open, reason, s.equity);
    CloseKeepsEntry(setup.config, t, i + 1, next.time, next.open, reason, s.equity);
    LaterBound(setup.config, feed, s, i);
    CloseKeepsOrder(setup.config, feed, s, c, i + 1);
    CloseBalances(setup.config, s, c);
  }

  // --- whole runs -------------------------------------------------------------

  /** The loop's invariant after k bars. */
  predicate Kept(setup: Setup, feed: Feed, k: nat, s: State)
    requires feed.Aligned() && k <= |feed.bars|
  {
    && InOrder(setup.config, feed, s, k) && QueuedOnSignal(feed, s, k)
    && Balanced(setup.config, s.equity, s.trades)
    && |s.path| == k
    && (k > 0 ==> s.path[0] == setup.config.initialCapital)
    && (k > 0 && s.position.None? ==> s.path[k - 1] == s.equity)
  }

  lemma {:induction false} EveryBarKeeps(setup: Setup, feed: Feed, k: nat)
    requires feed.Aligned() && k <= |feed.bars|
    ensures Kept(setup, feed, k, After(setup, feed, k))
  {
    hide Step, Kept;
    if k == 0 {
      NothingToKeep(setup, feed);
    } else {
      EveryBarKeeps(setup, feed, k - 1);
      StepKeeps(setup, feed, k - 1, After(setup, feed, k - 1));
    }
  }

  lemma NothingToKeep(setup: Setup, feed: Feed)
    requires feed.Aligned()
    ensures Kept(setup, feed, 0, Start(setup.config))
  {
  }

  lemma StepKeeps(setup: Setup, feed: Feed, i: nat, s: State)
    requires feed.Aligned() && i < |feed.bars| && Kept(setup, feed, i, s) && (i == 0 ==> s == Start(setup.config))
    ensures Kept(setup, feed, i + 1, Step(setup, feed, i, s))
  {
    hide InOrder, Balanced, QueuedOnSignal, Fill, Manage, Signal, Unrealised;
    var f := Fill(setup, feed, i, s);
    FillKeepsOrder(setup, feed, i, s);
    FillKeepsAccount(setup, feed, i, s);
    var m := Manage(setup, feed, i, f);
    ManageKeepsOrder(setup, feed, i, f);
    SignalKeepsOrder(setup, feed, i, m);
    var n := Signal(setup, feed, i, m);
    PhasesKeepPath(setup, feed, i, s);
    PhasesKeepPath(setup, feed, i, f);
    PhasesKeepPath(setup, feed, i, m);
    MarkKeepsOrder(setup.config, feed, i, n);
    if i == 0 { NothingOnFirstBar(setup, feed, s); }
  }

  lemma FillKeepsAccount(setup: Setup, feed: Feed, i: nat, s: State)
    requires feed.Aligned() && i < |feed.bars|
    ensures Fill(setup, feed, i, s).equity == s.equity && Fill(setup, feed, i, s).trades == s.trades
  {
    hide Open;
  }

  lemma MarkKeepsOrder(config: Config, feed: Feed, i: nat, s: State)
    requires feed.Aligned() && i < |feed.bars|
    ensures var m := Mark(feed, i, s);
      && (InOrder(config, feed, s, i + 1) ==> InOrder(config, feed, m, i + 1))
      && (QueuedOnSignal(feed, s, i + 1) ==> QueuedOnSignal(feed, m, i + 1))
  {
    hide EnteredOnSignal, LeftInOrder, Unrealised;
  }

  lemma NothingOnFirstBar(setup: Setup, feed: Feed, s: State)
    requires feed.Aligned() && 0 < |feed.bars| && s == Start(setup.config)
    ensures var n := Signal(setup, feed, 0, Manage(setup, feed, 0, Fill(setup, feed, 0, s)));
      n.position.None? && n.equity == setup.config.initialCapital
  {
  }

  /** Every run, whatever the market and the signals: the account ends at the initial capital plus every net
      result and is the last point of the equity path, whose first point is the initial capital; the trades
      follow one another without overlap, each entered at the open after its signal.
    */
  lemma EveryRunBalances(setup: Setup, feed: Feed)
    requires feed.Aligned() && |feed.bars| >= 2
    ensures var r := Run(setup, feed);
      && Balanced(setup.config, r.equity, r.trades)
      && |r.path| == |feed.bars| && r.path[0] == setup.config.initialCapital
      && r.path[|r.path| - 1] == r.equity
    ensures InOrder(setup.config, feed, Run(setup, feed), |feed.bars|) && Run(setup, feed).position.None?
  {
    var n := |feed.bars|;
    EveryBarKeeps(setup, feed, n);
    hide InOrder, Balanced, QueuedOnSignal, After, Close, Slip;
    var s := After(setup, feed, n);
    if s.position.Some? { FinishKeeps(setup, feed, s); }
  }

  lemma FinishKeeps(setup: Setup, feed: Feed, s: State)
    requires feed.Aligned() && |feed.bars| >= 2 && s.position.Some? && |s.path| == |feed.bars|
    requires InOrder(setup.config, feed, s, |feed.bars|) && Balanced(setup.config, s.equity, s.trades)
    ensures var r := Finish(setup, feed, s);
      InOrder(setup.config, feed, r, |feed.bars|) && Balanced(setup.config, r.equity, r.trades)
  {
    hide Balanced, Close, Slip, Signalled;
    var last := |feed.bars| - 1;
    var t, bar := s.position.value.trade, feed.bars[last];
    var c := Close(setup.config, t, last, bar.time, bar.close, EndOfData, s.equity);
    CloseKeepsEntry(setup.config, t, last, bar.time, bar.close, EndOfData, s.equity);
    CloseKeepsOrder(setup.config, feed, s, c, |feed.bars|);
    CloseBalances(setup.config, s, c);
  }

  // --- exits booked early ------------------------------------------------------

  predicate BySignal(t: Trade) {
    t.reason.TimeExit? || t.reason.OppositeSignal?
  }

  /** The equity path holds the result of a signal exit one bar before the exit is filled. */
  predicate BookedAt(path: seq<real>, t: Trade) {
    1 <= t.exitIndex <= |path| && path[t.exitIndex - 1] == t.equityAfter
  }

  predicate BookedEarly(s: State) {
    forall j :: 0 <= j < |s.trades| && BySignal(s.trades[j]) ==> BookedAt(s.path, s.trades[j])
  }

  lemma ManageBooks(setup: Setup, feed: Feed, i: nat, s: State)
    requires feed.Aligned() && i < |feed.bars| && BookedEarly(s)
    ensures BookedEarly(Manage(setup, feed, i, s)) && Manage(setup, feed, i, s).path == s.path
  {
    hide Close, UpdateStops, Accrue, Resolve, BookedAt;
    PhasesKeepPath(setup, feed, i, s);
    if s.position.Some? {
      var bar, end := feed.bars[i], BarEnd(feed.bars, i);
      var p := UpdateStops(setup.rules, s.position.value, bar, feed.atr[i]);
      var hit := Resolve(setup.minutes, p, bar.high, bar.low, bar.time, end);
      HitIsLevel(setup.minutes, p, bar.high, bar.low, bar.time, end);
      if hit.Some? { CloseKeepsEntry(setup.config, p.trade, i, bar.time, hit.value.1, hit.value.0, s.equity); }
    }
  }

  /** A signal exit leaves the account flat, with the exit's own result in it. */
  lemma SignalThenMarkBooks(setup: Setup, feed: Feed, i: nat, s: State)
    requires feed.Aligned() && i < |feed.bars| && BookedEarly(s) && |s.path| == i
    ensures BookedEarly(Mark(feed, i, Signal(setup, feed, i, s)))
  {
    hide Close, Unrealised;
    PhasesKeepPath(setup, feed, i, s);
    var n := Signal(setup, feed, i, s);
    var m := Mark(feed, i, n);
    if n.trades != s.trades {
      var t, next := s.position.value.trade, feed.bars[i + 1];
      CloseKeepsEntry(setup.config, t, i + 1, next.time, next.open,
                      SignalExit(setup.rules, t, i, feed.longs[i], feed.shorts[i]).value, s.equity);
      assert n.trades[..|s.trades|] == s.trades && n.position.None?;
    }
  }

  lemma {:induction false} EveryBarBooks(setup: Setup, feed: Feed, k: nat)
    requires feed.Aligned() && k <= |feed.bars|
    ensures BookedEarly(After(setup, feed, k)) && |After(setup, feed, k).path| == k
  {
    hide Fill, Manage, Signal, Mark, BookedEarly;
    PathLength(setup, feed, k);
    if k == 0 {
      NothingBooked(setup.config);
    } else {
      EveryBarBooks(setup, feed, k - 1);
      var s := After(setup, feed, k - 1);
      FillBooks(setup, feed, k - 1, s);
      ManageBooks(setup, feed, k - 1, Fill(setup, feed, k - 1, s));
      SignalThenMarkBooks(setup, feed, k - 1, Manage(setup, feed, k - 1, Fill(setup, feed, k - 1, s)));
    }
  }

  lemma NothingBooked(config: Config)
    ensures BookedEarly(Start(config))
  {
  }

  lemma FillBooks(setup: Setup, feed: Feed, i: nat, s: State)
    requires feed.Aligned() && i < |feed.bars| && BookedEarly(s)
    ensures BookedEarly(Fill(setup, feed, i, s)) && Fill(setup, feed, i, s).path == s.path
  {
    hide Open;
  }

  /** In every run, the equity of the bar that signalled an exit is the account after that exit, which is filled
      only at the next open: one bar of the curve knows the price of the next.
    */
  lemma SignalExitIsBookedEarly(setup: Setup, feed: Feed, j: nat)
    requires feed.Aligned() && |feed.bars| >= 2
    requires j < |Run(setup, feed).trades| && BySignal(Run(setup, feed).trades[j])
    ensures var r := Run(setup, feed);
      var t := r.trades[j];
      && 1 <= t.exitIndex < |feed.bars| && |r.path| == |feed.bars| && r.path[t.exitIndex - 1] == t.equityAfter
      && t.exitPrice == Slip(feed.bars[t.exitIndex].open, setup.config.slippageBps, t.side.Short?)
  {
    hide After, Slip, Close, Balanced, EnteredOnSignal, Signalled;
    EveryRunBalances(setup, feed);
    EveryBarBooks(setup, feed, |feed.bars|);
    FinishBooks(setup, feed, After(setup, feed, |feed.bars|), j);
  }

  lemma FinishBooks(setup: Setup, feed: Feed, s: State, j: nat)
    requires feed.Aligned() && |s.path| == |feed.bars| >= 2 && BookedEarly(s)
    requires j < |Finish(setup, feed, s).trades| && BySignal(Finish(setup, feed, s).trades[j])
    requires Finish(setup, feed, s).trades[j].exitIndex < |feed.bars|
    ensures BookedAt(Finish(setup, feed, s).path, Finish(setup, feed, s).trades[j])
  {
    hide Close;
    var n, r := |feed.bars|, Finish(setup, feed, s);
    if s.position.Some? {
      CloseKeepsEntry(setup.config, s.position.value.trade, n - 1, feed.bars[n - 1].time, feed.bars[n - 1].close, EndOfData, s.equity);
      assert j < |s.trades|;
    }
    assert r.trades[j] == s.trades[j];
  }
}
