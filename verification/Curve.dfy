/** What each point of the equity path is made of (packages/engine/quanta_engine/backtest/engine.py). */
module Curve {
  import opened Wrappers
  import opened Market
  import opened Engine
  import opened Ledger

  /** Whether a trade's result is in the account at bar k's close: it has ended by then, or a signal ends it at
      the next open.
    */
  predicate Booked(t: Trade, k: int) {
    t.exitIndex <= k || (t.exitIndex == k + 1 && BySignal(t))
  }

  /** A trade's share of the equity at bar k: its net result once booked, before that what it would bring at the
      close, and nothing before its entry.
    */
  function Share(feed: Feed, t: Trade, k: nat): real
    requires k < |feed.bars|
  {
    if Booked(t, k) then t.netPnl
    else if t.entryIndex <= k then Unrealised(t, feed.bars[k].close)
    else 0.0
  }

  function Shares(feed: Feed, trades: seq<Trade>, k: nat): real
    requires k < |feed.bars|
  {
    if |trades| == 0 then 0.0
    else Shares(feed, trades[..|trades| - 1], k) + Share(feed, trades[|trades| - 1], k)
  }

  /** The share of a position still open. */
  function OpenShare(feed: Feed, position: Option<Position>, k: nat): real
    requires k < |feed.bars|
  {
    if position.Some? && position.value.trade.entryIndex <= k then Unrealised(position.value.trade, feed.bars[k].close)
    else 0.0
  }

  function EquityAt(config: Config, feed: Feed, s: State, k: nat): real
    requires k < |feed.bars|
  {
    config.initialCapital + Shares(feed, s.trades, k) + OpenShare(feed, s.position, k)
  }

  /** Every point of the path so far is the capital and the shares of all trades. */
  predicate Exact(config: Config, feed: Feed, s: State) {
    |s.path| <= |feed.bars| && forall k :: 0 <= k < |s.path| ==> s.path[k] == EquityAt(config, feed, s, k)
  }

  lemma SharesAppend(feed: Feed, trades: seq<Trade>, t: Trade, k: nat)
    requires k < |feed.bars|
    ensures Shares(feed, trades + [t], k) == Shares(feed, trades, k) + Share(feed, t, k)
  {
    assert (trades + [t])[..|trades|] == trades;
  }

  lemma {:induction false} SharesBooked(feed: Feed, trades: seq<Trade>, k: nat)
    requires k < |feed.bars| && forall j :: 0 <= j < |trades| ==> Booked(trades[j], k)
    ensures Shares(feed, trades, k) == NetTotal(trades)
  {
    if |trades| > 0 { SharesBooked(feed, trades[..|trades| - 1], k); }
  }

  // --- a bar leaves earlier points alone ----------------------------------------------------

  /** Ending a position at bar i or later, or at the open after bar i by signal, changes no earlier share. */
  lemma CloseKeepsShares(config: Config, feed: Feed, s: State, c: Trade, k: nat)
    requires k < |feed.bars| && s.position.Some? && SameEntry(c, s.position.value.trade)
    requires !Booked(c, k)
    ensures EquityAt(config, feed, CloseInto(s, c), k) == EquityAt(config, feed, s, k)
  {
    SharesAppend(feed, s.trades, c, k);
    assert Unrealised(c, feed.bars[k].close) == Unrealised(s.position.value.trade, feed.bars[k].close);
    hide Shares, Unrealised;
  }

  lemma FillKeepsShares(setup: Setup, feed: Feed, i: nat, s: State)
    requires feed.Aligned() && i < |feed.bars| && |s.path| == i && Exact(setup.config, feed, s)
    ensures Exact(setup.config, feed, Fill(setup, feed, i, s))
  {
    PhasesKeepPath(setup, feed, i, s);
    if s.pending.Some? && s.position.None? {
      EntersNow(setup, feed, s.pending.value, i, s.equity, if i > 0 then feed.atr[i - 1] else None);
    }
    hide Open, Shares, Unrealised;
  }

  lemma EntersNow(setup: Setup, feed: Feed, side: Side, i: nat, equity: real, atr: Option<real>)
    requires feed.Aligned() && i < |feed.bars|
    ensures Open(setup.rules, setup.config, side, i, feed.bars[i].time, feed.bars[i].open, equity, atr).trade.entryIndex == i
  {
    hide Slip, Away, NextFundingAfter;
  }

  lemma ManageKeepsShares(setup: Setup, feed: Feed, i: nat, s: State)
    requires feed.Aligned() && i < |feed.bars| && |s.path| == i && Exact(setup.config, feed, s)
    ensures Exact(setup.config, feed, Manage(setup, feed, i, s))
  {
    PhasesKeepPath(setup, feed, i, s);
    if s.position.Some? {
      hide Close, UpdateStops, Accrue, Resolve, EquityAt;
      var bar, end := feed.bars[i], BarEnd(feed.bars, i);
      var p := UpdateStops(setup.rules, s.position.value, bar, feed.atr[i]);
      StopsKeepTrade(setup.rules, s.position.value, bar, feed.atr[i]);
      var hit := Resolve(setup.minutes, p, bar.high, bar.low, bar.time, end);
      if hit.Some? {
        HitIsLevel(setup.minutes, p, bar.high, bar.low, bar.time, end);
        CloseKeepsEntry(setup.config, p.trade, i, bar.time, hit.value.1, hit.value.0, s.equity);
        var c := Close(setup.config, p.trade, i, bar.time, hit.value.1, hit.value.0, s.equity);
        forall k | 0 <= k < i ensures EquityAt(setup.config, feed, CloseInto(s, c), k) == EquityAt(setup.config, feed, s, k) {
          CloseKeepsShares(setup.config, feed, s, c, k);
        }
      } else {
        AccrueKeepsEntry(setup, p, bar.time, end, bar.close);
        var held := Excursion(Accrue(setup, p, bar.time, end, bar.close), bar.high, bar.low);
        forall k | 0 <= k < i
          ensures EquityAt(setup.config, feed, s.(position := Some(held)), k) == EquityAt(setup.config, feed, s, k)
        {
          HoldKeepsShares(setup.config, feed, s, held, k);
        }
      }
    }
  }

  lemma HoldKeepsShares(config: Config, feed: Feed, s: State, held: Position, k: nat)
    requires k < |feed.bars| && s.position.Some? && SameEntry(held.trade, s.position.value.trade)
    ensures EquityAt(config, feed, s.(position := Some(held)), k) == EquityAt(config, feed, s, k)
  {
  }

  lemma SignalKeepsShares(setup: Setup, feed: Feed, i: nat, s: State)
    requires feed.Aligned() && i < |feed.bars| && |s.path| == i && Exact(setup.config, feed, s)
    ensures Exact(setup.config, feed, Signal(setup, feed, i, s))
  {
    PhasesKeepPath(setup, feed, i, s);
    var n := Signal(setup, feed, i, s);
    if s.position.Some? && n.position.None? {
      var t, next := s.position.value.trade, feed.bars[i + 1];
      var reason := SignalExit(setup.rules, t, i, feed.longs[i], feed.shorts[i]).value;
      CloseKeepsEntry(setup.config, t, i + 1, next.time, next.open, reason, s.equity);
      var c := Close(setup.config, t, i + 1, next.time, next.open, reason, s.equity);
      hide Close, SignalExit;
      forall k | 0 <= k < i ensures EquityAt(setup.config, feed, n, k) == EquityAt(setup.config, feed, s, k) {
        CloseKeepsShares(setup.config, feed, s, c, k);
      }
    } else {
      hide Close, SignalExit, Shares, Unrealised;
    }
  }

  // --- the bar's own point --------------------------------------------------------------------

  predicate AllBooked(trades: seq<Trade>, k: int) {
    forall j :: 0 <= j < |trades| ==> Booked(trades[j], k)
  }

  /** After the signals of bar i every finished trade is booked, and an open position was entered by then. */
  lemma BookedAfterSignal(setup: Setup, feed: Feed, i: nat, s: State)
    requires feed.Aligned() && i < |feed.bars| && InOrder(setup.config, feed, s, i)
    ensures var n := Signal(setup, feed, i, s);
      AllBooked(n.trades, i) && (n.position.Some? ==> n.position.value.trade.entryIndex <= i)
  {
    hide EnteredOnSignal, LeftInOrder;
    var n := Signal(setup, feed, i, s);
    if n.trades != s.trades {
      var t, next := s.position.value.trade, feed.bars[i + 1];
      var reason := SignalExit(setup.rules, t, i, feed.longs[i], feed.shorts[i]).value;
      CloseKeepsEntry(setup.config, t, i + 1, next.time, next.open, reason, s.equity);
      hide Close;
      assert n.trades[..|s.trades|] == s.trades;
    }
  }

  lemma MarkIsExact(config: Config, feed: Feed, i: nat, s: State)
    requires feed.Aligned() && i < |feed.bars| && |s.path| == i && Exact(config, feed, s)
    requires Balanced(config, s.equity, s.trades) && AllBooked(s.trades, i)
    requires s.position.Some? ==> s.position.value.trade.entryIndex <= i
    ensures Exact(config, feed, Mark(feed, i, s))
  {
    SharesBooked(feed, s.trades, i);
    var m := Mark(feed, i, s);
    hide Unrealised, Shares, Balanced;
    assert s.equity == config.initialCapital + NetTotal(s.trades) by { BalanceIs(config, s); }
    forall k | 0 <= k < |m.path| ensures m.path[k] == EquityAt(config, feed, m, k) {
      if k < i { assert s.path[k] == EquityAt(config, feed, s, k); }
    }
  }

  lemma BalanceIs(config: Config, s: State)
    requires Balanced(config, s.equity, s.trades)
    ensures s.equity == config.initialCapital + NetTotal(s.trades)
  {
  }

  lemma {:induction false} EveryBarIsExact(setup: Setup, feed: Feed, k: nat)
    requires feed.Aligned() && k <= |feed.bars|
    ensures Exact(setup.config, feed, After(setup, feed, k)) && |After(setup, feed, k).path| == k
  {
    hide Fill, Manage, Signal, Mark, Exact, Kept;
    PathLength(setup, feed, k);
    if k == 0 {
      NothingYet(setup.config, feed);
    } else {
      EveryBarIsExact(setup, feed, k - 1);
      StepIsExact(setup, feed, k - 1, After(setup, feed, k - 1)) by { EveryBarKeeps(setup, feed, k - 1); }
    }
  }

  lemma NothingYet(config: Config, feed: Feed)
    ensures Exact(config, feed, Start(config))
  {
  }

  lemma StepIsExact(setup: Setup, feed: Feed, i: nat, s: State)
    requires feed.Aligned() && i < |feed.bars| && Kept(setup, feed, i, s) && Exact(setup.config, feed, s)
    ensures Exact(setup.config, feed, Step(setup, feed, i, s))
  {
    hide InOrder, Balanced, QueuedOnSignal, Fill, Manage, Signal, Exact, AllBooked;
    var f := Fill(setup, feed, i, s);
    PhasesKeepPath(setup, feed, i, s);
    FillKeepsOrder(setup, feed, i, s);
    FillKeepsAccount(setup, feed, i, s);
    FillKeepsShares(setup, feed, i, s);
    var m := Manage(setup, feed, i, f);
    PhasesKeepPath(setup, feed, i, f);
    ManageKeepsOrder(setup, feed, i, f);
    ManageKeepsShares(setup, feed, i, f);
    var n := Signal(setup, feed, i, m);
    PhasesKeepPath(setup, feed, i, m);
    SignalKeepsOrder(setup, feed, i, m);
    SignalKeepsShares(setup, feed, i, m);
    BookedAfterSignal(setup, feed, i, m);
    MarkIsExact(setup.config, feed, i, n);
  }

  // --- the whole path ---------------------------------------------------------------------------

  /** Every point of every run's equity path: the capital, the net results of the trades that have ended or that
      a signal ends at the next open, and what the open trade would bring at that close.
    */
  lemma PathIsExact(setup: Setup, feed: Feed, k: nat)
    requires feed.Aligned() && |feed.bars| >= 2 && k < |feed.bars|
    ensures |Run(setup, feed).path| == |feed.bars|
    ensures Run(setup, feed).path[k] == setup.config.initialCapital + Shares(feed, Run(setup, feed).trades, k)
  {
    hide After, InOrder, Exact, Shares, Close, Kept;
    var n := |feed.bars|;
    EveryBarIsExact(setup, feed, n);
    EveryBarKeeps(setup, feed, n);
    EveryRunBalances(setup, feed);
    FinishIsExact(setup, feed, After(setup, feed, n), k);
  }

  lemma FinishIsExact(setup: Setup, feed: Feed, s: State, k: nat)
    requires feed.Aligned() && |feed.bars| >= 2 && k < |feed.bars| == |s.path| && Exact(setup.config, feed, s)
    requires var r := Finish(setup, feed, s);
      Balanced(setup.config, r.equity, r.trades) && InOrder(setup.config, feed, r, |feed.bars|)
    ensures Finish(setup, feed, s).path[k] == setup.config.initialCapital + Shares(feed, Finish(setup, feed, s).trades, k)
  {
    var n, r := |feed.bars|, Finish(setup, feed, s);
    if s.position.Some? {
      var bar, t := feed.bars[n - 1], s.position.value.trade;
      CloseKeepsEntry(setup.config, t, n - 1, bar.time, bar.close, EndOfData, s.equity);
      var c := Close(setup.config, t, n - 1, bar.time, bar.close, EndOfData, s.equity);
      hide Close, Balanced, Shares, Unrealised;
      if k < n - 1 {
        CloseKeepsShares(setup.config, feed, s, c, k);
      } else {
        AllEnded(setup.config, feed, r);
        SharesBooked(feed, r.trades, k);
        BalanceIs(setup.config, r);
      }
    }
  }

  lemma AllEnded(config: Config, feed: Feed, s: State)
    requires feed.Aligned() && InOrder(config, feed, s, |feed.bars|)
    ensures AllBooked(s.trades, |feed.bars| - 1)
  {
    hide EnteredOnSignal, Slip;
  }
}
